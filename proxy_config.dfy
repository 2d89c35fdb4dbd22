/** Authentication through an upstream proxy: header mapping defaults and the separator rule. */
module ProxyConfig {
  import opened Wrappers

  /** `HeaderMappingConfig.role_map`: upstream group values to Frigate roles. */
  datatype HeaderMapping = HeaderMapping(user: Option<string>, role: Option<string>, roleMap: Option<map<string, seq<string>>>)

  /** The part of `ProxyConfig` with defaults or validation. */
  datatype ProxySettings = ProxySettings(headerMap: HeaderMapping, logoutUrl: Option<string>, defaultRole: Option<string>, separator: Option<string>)

  /** No headers and an empty role map; default role "viewer"; separator ",". */
  const Default: ProxySettings := ProxySettings(HeaderMapping(None, None, Some(map[])), None, Some("viewer"), Some(","))

  const SeparatorError := "Separator must be exactly one character"

  /** `validate_separator_length`: no separator, or a separator of exactly one character. */
  function ValidateSeparator(separator: Option<string>): Result<Option<string>> {
    if separator.Some? && |separator.value| != 1 then Err(SeparatorError) else Ok(separator)
  }

  /** A separator is refused exactly when it is given and is not one character long; an accepted one is kept. */
  lemma ValidateSeparatorExactly(separator: Option<string>)
    ensures ValidateSeparator(separator).Err? <==> separator.Some? && |separator.value| != 1
    ensures ValidateSeparator(separator).Ok? ==> ValidateSeparator(separator).value == separator
    ensures ValidateSeparator(None) == Ok(None)
  {
  }

  /** The default separator passes the check, and the defaults are as documented. */
  lemma DefaultAccepted()
    ensures ValidateSeparator(Default.separator) == Ok(Some(","))
    ensures Default.defaultRole == Some("viewer") && Default.headerMap.roleMap == Some(map[])
  {
  }
}
