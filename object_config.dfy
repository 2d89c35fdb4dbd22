/**
 * Object tracking settings: per-label filters and their mask serialiser, the
 * generative-AI required zones, and the union of every label any camera
 * tracks.
 */
module ObjectConfig {
  import opened Wrappers
  import Json
  import Validators

  /** The labels tracked when nothing else is configured. */
  const DefaultTrackedObjects: seq<string> := ["person"]

  /** `FilterConfig`; areas may be pixels or fractions, so they are reals. */
  datatype FilterConfig = FilterConfig(
    minArea: real,
    maxArea: real,
    minRatio: real,
    maxRatio: real,
    threshold: real,
    minScore: real,
    mask: Option<Json.JSON>,
    rawMask: Json.JSON)

  const DefaultFilter: FilterConfig := FilterConfig(0.0, 24000000.0, 0.0, 24000000.0, 0.7, 0.5, None, Json.Str(""))

  /** The two serialised mask fields of a filter. */
  datatype SerialisedMasks = SerialisedMasks(mask: Json.JSON, rawMask: Json.JSON)

  /** The JSON serialisers of a filter: the mask is written as the raw mask, the raw mask as null. */
  function SerialiseFilter(f: FilterConfig): SerialisedMasks {
    SerialisedMasks(f.rawMask, Json.Null)
  }

  /**
   * The mask is written as the raw mask and the raw mask as null, so the
   * parsed mask never reaches the output: two filters with the same raw mask
   * serialise alike.
   */
  lemma SerialiseIgnoresParsedMask(f: FilterConfig, g: FilterConfig)
    requires f.rawMask == g.rawMask
    ensures SerialiseFilter(f).mask == f.rawMask && SerialiseFilter(f).rawMask == Json.Null
    ensures SerialiseFilter(f) == SerialiseFilter(g)
  {
  }

  /** `GenAIObjectConfig`, its required zones after the validator. */
  datatype GenAIObjectConfig = GenAIObjectConfig(enabled: bool, useSnapshot: bool, objects: Json.JSON, requiredZones: Json.JSON)

  const DefaultGenAI: GenAIObjectConfig := GenAIObjectConfig(false, false, Json.Arr([]), Json.Arr([]))

  /** GenAI settings built from a raw required-zones value: the validator runs on it first. */
  function GenAIWithZones(base: GenAIObjectConfig, requiredZones: Json.JSON): (g: GenAIObjectConfig)
    ensures requiredZones.Str? && ',' !in requiredZones.s ==> g.requiredZones == Json.Arr([requiredZones])
    ensures !(requiredZones.Str? && ',' !in requiredZones.s) ==> g.requiredZones == requiredZones
    ensures g.(requiredZones := base.requiredZones) == base
  {
    base.(requiredZones := Validators.ListFromName(requiredZones))
  }

  /** `set(labels)`. */
  function Labels(labels: seq<string>): set<string> {
    set l | l in labels
  }

  /** The labels of the global track list and of the given cameras' track lists, as a set. */
  function TrackedLabels(track: seq<string>, cameraTracks: seq<seq<string>>): set<string>
  {
    if cameraTracks == [] then Labels(track)
    else TrackedLabels(track, cameraTracks[..|cameraTracks| - 1]) + Labels(cameraTracks[|cameraTracks| - 1])
  }

  /** A label is tracked exactly when the global list or some camera's list holds it. */
  lemma {:induction false} TrackedLabelsExactly(track: seq<string>, cameraTracks: seq<seq<string>>, name: string)
    ensures name in TrackedLabels(track, cameraTracks) <==>
      name in track || exists c :: 0 <= c < |cameraTracks| && name in cameraTracks[c]
  {
    if cameraTracks != [] {
      var init := cameraTracks[..|cameraTracks| - 1];
      TrackedLabelsExactly(track, init, name);
      if exists c :: 0 <= c < |cameraTracks| && name in cameraTracks[c] {
        var c :| 0 <= c < |cameraTracks| && name in cameraTracks[c];
        if c < |init| {
          assert name in init[c];
        }
      }
      if exists c :: 0 <= c < |init| && name in init[c] {
        var c :| 0 <= c < |init| && name in init[c];
        assert name in cameraTracks[c];
      }
    }
  }

  /** `ObjectConfig`: the global track list and the name set computed once for all cameras. */
  class ObjectSettings {
    const track: seq<string>
    var allObjects: Option<set<string>>

    constructor (track: seq<string>)
      ensures this.track == track && allObjects == None
    {
      this.track := track;
      allObjects := None;
    }

    /**
     * `parse_all_objects`: once the name set is known this does nothing;
     * otherwise it becomes the union of the global track list and every
     * camera's track list.
     */
    method ParseAllObjects(cameraTracks: seq<seq<string>>)
      modifies this
      ensures old(allObjects).Some? ==> allObjects == old(allObjects)
      ensures old(allObjects).None? ==> allObjects == Some(TrackedLabels(track, cameraTracks))
    {
      if allObjects.Some? {
        return;
      }
      var enabled: set<string> := Labels(track);
      for k := 0 to |cameraTracks|
        invariant enabled == TrackedLabels(track, cameraTracks[..k])
      {
        assert cameraTracks[..k + 1][..k] == cameraTracks[..k];
        enabled := enabled + Labels(cameraTracks[k]);
      }
      assert cameraTracks[..|cameraTracks|] == cameraTracks;
      allObjects := Some(enabled);
    }
  }
}
