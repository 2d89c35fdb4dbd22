/**
 * The two value rewrites that several configuration models share: a zone or
 * camera setting given as one bare name becomes a list, and a mask that was
 * written in its original (raw) form is serialised back in that form.
 */
module Validators {
  import opened Wrappers
  import Json

  /**
   * A string without a comma becomes a one-element list, and anything else is kept: the
   * required-zones and camera-list validators, which run before the type
   * check.
   */
  function ListFromName(v: Json.JSON): Json.JSON {
    if v.Str? && ',' !in v.s then Json.Arr([v]) else v
  }

  /**
   * A string without a comma becomes the one-element list holding it; a
   * string with a comma, a list and any other value pass through unchanged.
   */
  lemma ListFromNameCases(v: Json.JSON)
    ensures v.Str? && ',' !in v.s ==> ListFromName(v) == Json.Arr([v]) && ListFromName(v).items[0].s == v.s
    ensures v.Str? && ',' in v.s ==> ListFromName(v) == v
    ensures !v.Str? ==> ListFromName(v) == v
  {
  }

  /**
   * The result is never a single bare name: a string that survives holds a
   * comma. Running the validator again changes nothing.
   */
  lemma ListFromNameSettled(v: Json.JSON)
    ensures ListFromName(v).Str? ==> ',' in ListFromName(v).s
    ensures ListFromName(ListFromName(v)) == ListFromName(v)
  {
  }

  /** `raw if raw else value`: the raw form is written back when there is one. */
  function PreferRaw(raw: Json.JSON, value: Json.JSON): Json.JSON {
    if Json.Truthy(raw) then raw else value
  }

  /**
   * Serialising writes the raw form when it is non-empty and the value
   * otherwise; reading the output back as the value with no raw form and
   * serialising again gives the same output.
   */
  lemma PreferRawStable(raw: Json.JSON, value: Json.JSON)
    ensures Json.Truthy(raw) ==> PreferRaw(raw, value) == raw
    ensures !Json.Truthy(raw) ==> PreferRaw(raw, value) == value
    ensures PreferRaw(Json.Str(""), PreferRaw(raw, value)) == PreferRaw(raw, value)
    ensures PreferRaw(Json.Null, PreferRaw(raw, value)) == PreferRaw(raw, value)
  {
  }
}
