/**
 * A single motion or object mask. The two mask classes have the same fields
 * and the same rules, so one datatype models both.
 */
module MaskConfig {
  import opened Wrappers
  import Json
  import Names
  import Validators

  /** `MotionMaskConfig` / `ObjectMaskConfig`. */
  datatype MaskSettings = MaskSettings(
    friendlyName: Option<string>,
    enabled: bool,
    coordinates: Json.JSON,
    rawCoordinates: Json.JSON,
    enabledInConfig: Option<bool>)

  /** No friendly name, enabled, empty coordinates and empty raw coordinates. */
  const Default: MaskSettings := MaskSettings(None, true, Json.Str(""), Json.Str(""), None)

  /** The two serialised fields that carry coordinates. */
  datatype SerialisedCoordinates = SerialisedCoordinates(coordinates: Json.JSON, rawCoordinates: Json.JSON)

  /**
   * `get_formatted_name`: the friendly name when it is set, otherwise the
   * mask id title-cased with underscores as spaces, whatever the friendly
   * name held.
   */
  function FormattedName(m: MaskSettings, maskId: string): (r: string)
    ensures Names.IsSet(m.friendlyName) ==> r == m.friendlyName.value
    ensures !Names.IsSet(m.friendlyName) ==> r == Names.FormattedName(None, maskId) && |r| == |maskId|
  {
    Names.FormattedName(m.friendlyName, maskId)
  }

  /**
   * The JSON serialisers: coordinates are written in their raw form when
   * there is one, and the raw field itself is always written as null.
   */
  function Serialise(m: MaskSettings): (out: SerialisedCoordinates)
    ensures out.rawCoordinates == Json.Null
    ensures Json.Truthy(m.rawCoordinates) ==> out.coordinates == m.rawCoordinates
    ensures !Json.Truthy(m.rawCoordinates) ==> out.coordinates == m.coordinates
  {
    SerialisedCoordinates(Validators.PreferRaw(m.rawCoordinates, m.coordinates), Json.Null)
  }

  /**
   * Serialising is stable: a mask read back from the output, whose raw
   * coordinates are then null or empty, serialises to the same output,
   * whatever its name and switches.
   */
  lemma SerialiseStable(m: MaskSettings, reloaded: MaskSettings)
    requires reloaded.coordinates == Serialise(m).coordinates
    requires reloaded.rawCoordinates == Json.Null || reloaded.rawCoordinates == Json.Str("")
    ensures Serialise(reloaded) == Serialise(m)
  {
    Validators.PreferRawStable(m.rawCoordinates, m.coordinates);
  }
}
