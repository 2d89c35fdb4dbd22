/** A camera's motion-detection settings: the bounded thresholds and the mask serialiser. */
module MotionConfig {
  import Json
  import Validators
  import opened Wrappers

  /** The part of `MotionConfig` with bounds and serialisers; masks are JSON dictionaries. */
  datatype MotionSettings = MotionSettings(
    enabled: bool,
    threshold: int,
    lightningThreshold: real,
    improveContrast: bool,
    mqttOffDelay: int,
    mask: Json.JSON,
    rawMask: Json.JSON)

  /** Threshold 30, lightning threshold 0.8, no masks. */
  const Default: MotionSettings := MotionSettings(true, 30, 0.8, true, 30, Json.Obj([], map[]), Json.Obj([], map[]))

  /** threshold in [1, 255] and lightning_threshold in [0.3, 1.0]. */
  predicate InBounds(m: MotionSettings) {
    1 <= m.threshold <= 255 && 0.3 <= m.lightningThreshold <= 1.0
  }

  /** The defaults lie inside the bounds. */
  lemma DefaultInBounds()
    ensures InBounds(Default)
    ensures Default.threshold == 30 && Default.lightningThreshold == 0.8
  {
  }

  /** The serialised mask fields; `rawMask` is None when the field is not written at all. */
  datatype SerialisedMasks = SerialisedMasks(mask: Json.JSON, rawMask: Option<Json.JSON>)

  /**
   * The JSON serialisers: the mask is written as the raw masks when any
   * were kept; the raw field is excluded from the output, so its own
   * serialiser never runs.
   */
  function Serialise(m: MotionSettings): (out: SerialisedMasks)
    ensures out.rawMask.None?
    ensures Json.Truthy(m.rawMask) ==> out.mask == m.rawMask
    ensures !Json.Truthy(m.rawMask) ==> out.mask == m.mask
  {
    SerialisedMasks(Validators.PreferRaw(m.rawMask, m.mask), None)
  }

  /** With no raw masks the masks are written as parsed; output read back with empty raw masks serialises the same. */
  lemma SerialiseStable(m: MotionSettings, reloaded: MotionSettings)
    requires reloaded.mask == Serialise(m).mask
    requires reloaded.rawMask == Json.Null || reloaded.rawMask == Json.Obj([], map[])
    ensures Serialise(reloaded) == Serialise(m)
  {
    Validators.PreferRawStable(m.rawMask, m.mask);
  }
}
