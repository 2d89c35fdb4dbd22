/**
 * The steps of the config migration chain, `migrate_014` to `migrate_018_0`.
 *
 * Each step is handed the loaded config dict, copies only its top level
 * (`config.copy()`) and then edits that copy. Assigning or deleting a
 * top-level key changes the copy alone, while an edit inside a nested
 * section changes the section object that the copy shares with the
 * handed-in dict. A step therefore yields two values: `written`, the dict it
 * returns (and the chain dumps to the file), and `seen`, the handed-in dict
 * as the step leaves it.
 *
 * Sections are read with `d.get(k, {})`; a section that is not a dict reads
 * as empty and is replaced by a dict when written to.
 */
module MigrationSteps {
  import opened Wrappers
  import opened Json
  import Text

  datatype Step = Step(written: JSON, seen: JSON)

  /** `d.get(k, {})`. */
  function Field(d: JSON, k: string): JSON {
    if Get(d, k).Some? then Get(d, k).value else Empty
  }

  /** `d.get(k)` is truthy. */
  predicate Given(d: JSON, k: string) {
    Truthy(Field(d, k))
  }

  /** `d[k] = v`. */
  function Put(d: JSON, k: string, v: JSON): (r: JSON)
    ensures r.Obj? && Get(r, k) == Some(v)
    ensures forall k' :: k' != k ==> Get(r, k') == Get(d, k')
  {
    Set(if d.Obj? then d else Empty, k, v)
  }

  /** `del d[k]`. */
  function Drop(d: JSON, k: string): (r: JSON)
    ensures Get(r, k) == None
    ensures forall k' :: k' != k ==> Get(r, k') == Get(d, k')
  {
    if d.Obj? then Del(d, k) else d
  }

  /** Every entry rewritten in place by `f` of its name and value, the order kept. */
  function EachEntry(d: JSON, f: (string, JSON) -> JSON): (r: JSON)
    ensures d.Obj? ==> r.Obj? && r.keys == d.keys && r.values.Keys == d.values.Keys
    ensures d.Obj? ==> forall k :: k in d.values ==> Get(r, k) == Some(f(k, d.values[k]))
    ensures !d.Obj? ==> r == d
  {
    if d.Obj? then Obj(d.keys, map k | k in d.values :: f(k, d.values[k])) else d
  }

  /**
   * The loop over `config["cameras"]` that replaces each camera with its
   * migrated copy. The cameras dict is shared, so the same value is the
   * new `cameras` of both the copy and the handed-in dict.
   */
  function WithCameras(d: JSON, config: JSON, f: (string, JSON) -> JSON): (r: JSON)
    ensures forall k :: k != "cameras" ==> Get(r, k) == Get(d, k)
  {
    if Has(config, "cameras") then Put(d, "cameras", EachEntry(Field(config, "cameras"), f)) else d
  }

  /**
   * A step's two results from its global part: the returned copy carries
   * `global`, the per-camera edits and the new version; the handed-in dict
   * carries `shared` (its sections after the in-place edits) and the
   * per-camera edits, which go into the shared cameras dict.
   */
  function Finish(global: JSON, shared: JSON, config: JSON, camera: (string, JSON) -> JSON, version: string): (s: Step)
    ensures Get(s.written, "version") == Some(Str(version))
    ensures forall k :: k != "cameras" && k != "version" ==> Get(s.written, k) == Get(global, k)
    ensures forall k :: k != "cameras" ==> Get(s.seen, k) == Get(shared, k)
    ensures Has(config, "cameras") ==> Get(s.written, "cameras") == Get(s.seen, "cameras")
                                       == Some(EachEntry(Field(config, "cameras"), camera))
  {
    Step(Put(WithCameras(global, config, camera), "version", Str(version)), WithCameras(shared, config, camera))
  }

  // ---------------------------------------------------------------- 0.14

  /** One section after the required-zones move, with its review and record objects as the move leaves them. */
  datatype Moved = Moved(section: JSON, review: JSON, record: JSON)

  /** `record.events.required_zones` of a section. */
  function EventZones(c: JSON): JSON {
    Field(Field(Field(c, "record"), "events"), "required_zones")
  }

  /** The review object with `alerts.required_zones` filled in when it is not already set. */
  function ZonesReview(c: JSON, zones: JSON): JSON {
    var review := if Given(c, "review") then Field(c, "review") else Empty;
    var alerts := if Given(review, "alerts") then Field(review, "alerts") else Empty;
    Put(review, "alerts", if Given(alerts, "required_zones") then alerts else Put(alerts, "required_zones", zones))
  }

  /** The record object without `events.required_zones`, and without `events` once that is empty. */
  function ZonesRecord(c: JSON): JSON {
    var record := Field(c, "record");
    var events := Drop(Field(record, "events"), "required_zones");
    if Truthy(events) then Put(record, "events", events) else Drop(record, "events")
  }

  /**
   * `migrate_014`'s move of `record.events.required_zones` to
   * `review.alerts.required_zones`, on the global config or on a camera.
   */
  function MoveZones(c: JSON): Moved {
    if !Truthy(EventZones(c)) then Moved(c, Field(c, "review"), Field(c, "record"))
    else
      var review := ZonesReview(c, EventZones(c));
      var record := ZonesRecord(c);
      var c1 := Put(c, "review", review);
      Moved(if Truthy(record) then Put(c1, "record", record) else Drop(c1, "record"), review, record)
  }

  /** `ffmpeg.output_args.rtmp` is set. */
  predicate HasOutputRtmp(c: JSON) {
    Given(Field(Field(c, "ffmpeg"), "output_args"), "rtmp")
  }

  /** The ffmpeg object without `output_args.rtmp`. */
  function FfmpegWithoutRtmp(c: JSON): JSON {
    var ffmpeg := Field(c, "ffmpeg");
    Put(ffmpeg, "output_args", Drop(Field(ffmpeg, "output_args"), "rtmp"))
  }

  /** Both rtmp settings removed from a section: the nested output args and the top-level key. */
  function DropRtmp(c: JSON): (r: JSON)
    ensures !Given(r, "rtmp") && !HasOutputRtmp(r)
  {
    var c1 := if HasOutputRtmp(c) then Put(c, "ffmpeg", FfmpegWithoutRtmp(c)) else c;
    if Given(c1, "rtmp") then Drop(c1, "rtmp") else c1
  }

  /** The ui object without the retired `use_experimental` and `live_mode` settings, each dropped only when set. */
  function UiWithoutRetired(ui: JSON): JSON {
    var u1 := if Given(ui, "use_experimental") then Drop(ui, "use_experimental") else ui;
    if Given(u1, "live_mode") then Drop(u1, "live_mode") else u1
  }

  /** `migrate_014` on one camera copy. */
  function Camera014(name: string, camera: JSON): JSON {
    DropRtmp(MoveZones(camera).section)
  }

  /** `migrate_014` on the global settings: zones moved, retired ui settings and rtmp removed. */
  function Global014(config: JSON): (r: JSON)
    ensures Get(r, "review") == Get(MoveZones(config).section, "review")
    ensures Get(r, "record") == Get(MoveZones(config).section, "record")
  {
    var n1 := MoveZones(config).section;
    var ui := UiWithoutRetired(Field(config, "ui"));
    DropRtmp(if Given(config, "ui") then (if Truthy(ui) then Put(n1, "ui", ui) else Drop(n1, "ui")) else n1)
  }

  /**
   * The handed-in dict after `migrate_014`'s in-place edits: a review
   * section it already had, its record, ui and ffmpeg sections are edited;
   * a new review section, the removal of an emptied record or ui section
   * and of the top-level rtmp key happen on the copy only.
   */
  function Shared014(config: JSON): (r: JSON)
    ensures !Has(config, "review") ==> Get(r, "review") == None
    ensures Truthy(EventZones(config)) ==> Get(r, "record") == Some(ZonesRecord(config))
  {
    var moved := MoveZones(config);
    var s1 := if Truthy(EventZones(config)) && Given(config, "review") then Put(config, "review", moved.review) else config;
    var s2 := if Truthy(EventZones(config)) then Put(s1, "record", moved.record) else s1;
    var s3 := if Given(config, "ui") then Put(s2, "ui", UiWithoutRetired(Field(config, "ui"))) else s2;
    if HasOutputRtmp(config) then Put(s3, "ffmpeg", FfmpegWithoutRtmp(config)) else s3
  }

  /** `migrate_014`. */
  function Migrate014(config: JSON): Step {
    Finish(Global014(config), Shared014(config), config, Camera014, "0.14")
  }

  // -------------------------------------------------------------- 0.15-0

  /** Alert (and by default detection) retention built from a legacy `record.events` section. */
  function Retention(events: JSON): JSON {
    var r0 := Obj(["retain"], map["retain" := Empty]);
    var r1 := if Given(events, "pre_capture") then Put(r0, "pre_capture", Field(events, "pre_capture")) else r0;
    var r2 := if Given(events, "post_capture") then Put(r1, "post_capture", Field(events, "post_capture")) else r1;
    var retain := Field(events, "retain");
    if Given(retain, "default") then Put(r2, "retain", Put(Empty, "days", Field(retain, "default"))) else r2
  }

  /** Detections keep the legacy event settings unless alerts have required zones and no detections section exists. */
  predicate DetectionsFollowEvents(c: JSON) {
    !Given(Field(Field(c, "review"), "alerts"), "required_zones") || Given(Field(c, "review"), "detections")
  }

  /** The retention detections get when they do not follow the events: continuous days, or 1. */
  function ContinuousRetention(c: JSON): JSON {
    var days := Field(Field(Field(c, "record"), "retain"), "days");
    Obj(["retain"], map["retain" := Put(Empty, "days", if Truthy(days) then days else Int(1))])
  }

  /** `record.events` split into `record.alerts` and `record.detections`, on one section. */
  function SplitEvents(c: JSON): (r: JSON)
    ensures forall k :: k != "record" ==> Get(r, k) == Get(c, k)
  {
    var record := Field(c, "record");
    var events := Field(record, "events");
    if !Truthy(events) then c
    else
      var detections := if DetectionsFollowEvents(c) then Retention(events) else ContinuousRetention(c);
      Put(c, "record", Drop(Put(Put(record, "alerts", Retention(events)), "detections", detections), "events"))
  }

  function Camera015(name: string, camera: JSON): JSON {
    SplitEvents(camera)
  }

  /** `migrate_015_0`: every change is inside a shared section, so the handed-in dict sees all but the version. */
  function Migrate0150(config: JSON): Step {
    Finish(SplitEvents(config), SplitEvents(config), config, Camera015, "0.15-0")
  }

  // -------------------------------------------------------------- 0.15-1

  /** A detector whose `model.path` is set gets it as `model_path`, and loses `model`. */
  function DetectorModelPath(name: string, detector: JSON): (r: JSON)
    ensures Given(Field(detector, "model"), "path") ==>
              Get(r, "model_path") == Some(Field(Field(detector, "model"), "path")) && Get(r, "model") == None
    ensures !Given(Field(detector, "model"), "path") ==> r == detector
  {
    var path := Field(Field(detector, "model"), "path");
    if Truthy(path) then Drop(Put(detector, "model_path", path), "model") else detector
  }

  /** Every detector's model path moved. */
  function Global0151(config: JSON): (r: JSON)
    ensures forall k :: k != "detectors" ==> Get(r, k) == Get(config, k)
  {
    if Has(config, "detectors") then Put(config, "detectors", EachEntry(Field(config, "detectors"), DetectorModelPath))
    else config
  }

  /** `migrate_015_1`: the detectors are edited in place, so the handed-in dict sees it all. */
  function Migrate0151(config: JSON): Step {
    Finish(Global0151(config), Global0151(config), config, (name: string, camera: JSON) => camera, "0.15-1")
  }

  // -------------------------------------------------------------- 0.16-0

  /** `detect.enabled is None`: missing or null. */
  predicate DetectUnset(config: JSON) {
    var enabled := Get(Field(config, "detect"), "enabled");
    enabled.None? || enabled.value == Null
  }

  /** A non-empty `movement_weights` string of exactly five comma-separated entries. */
  predicate FiveWeights(w: JSON) {
    w.Str? && w.s != "" && |Text.Split(w.s, ',')| == 5
  }

  /** Five movement weights gain a sixth, `0`; anything else is kept. */
  function Weights(w: JSON): JSON {
    if FiveWeights(w) then Str(w.s + ", 0") else w
  }

  /** `live.stream_name` n becomes `live.streams` {n: n}. */
  function LiveStreams(live: JSON, str: JSON -> string): (r: JSON)
    ensures Has(live, "stream_name") ==>
              Get(r, "stream_name") == None && Get(r, "streams") == Some(StreamsOf(live.values["stream_name"], str))
    ensures !Has(live, "stream_name") ==> r == live
  {
    if Has(live, "stream_name") then Drop(Put(live, "streams", StreamsOf(live.values["stream_name"], str)), "stream_name")
    else live
  }

  /** `{name: name}`; the key is the name's text. */
  function StreamsOf(name: JSON, str: JSON -> string): JSON {
    var key := if name.Str? then name.s else str(name);
    Obj([key], map[key := name])
  }

  /** `migrate_016_0` on one camera copy. */
  function Camera016(camera: JSON, str: JSON -> string): JSON {
    var live := Field(camera, "live");
    var c1 := if Has(live, "stream_name") then Put(camera, "live", LiveStreams(live, str)) else camera;
    var onvif := Field(c1, "onvif");
    if Has(onvif, "autotracking") then
      var tracking := Field(onvif, "autotracking");
      var w := Field(tracking, "movement_weights");
      Put(c1, "onvif", if FiveWeights(w) then Put(onvif, "autotracking", Put(tracking, "movement_weights", Weights(w))) else onvif)
    else c1
  }

  /** `migrate_016_0`. `str` is Python's `str` on a non-string stream name. */
  function Migrate0160(config: JSON, str: JSON -> string): Step {
    var detect := Put(Field(config, "detect"), "enabled", Bool(true));
    var global := if DetectUnset(config) then Put(config, "detect", detect) else config;
    var shared := if DetectUnset(config) && Has(config, "detect") then Put(config, "detect", detect) else config;
    Finish(global, shared, config, (name: string, c: JSON) => Camera016(c, str), "0.16-0")
  }

  // -------------------------------------------------------------- 0.17-0

  /**
   * `record.retain` replaced by `record.continuous` and `record.motion`.
   * With retention days set: mode "all" (the default) keeps continuous
   * recordings that long, and globally also motion recordings; another
   * mode keeps motion recordings only, and the section not named is written
   * with 0 days. Without days neither section is written. `retain` is
   * removed in every case.
   */
  function RetainSplit(record: JSON, isGlobal: bool): (r: JSON)
    ensures Get(r, "retain") == None
    ensures forall k :: k != "retain" && k != "continuous" && k != "motion" ==> Get(r, k) == Get(record, k)
    ensures !Truthy(Field(Field(record, "retain"), "days")) ==>
              Get(r, "continuous") == Get(record, "continuous") && Get(r, "motion") == Get(record, "motion")
  {
    var retain := Field(record, "retain");
    var days := Field(retain, "days");
    if Truthy(days) then
      var all := GetOr(retain, "mode", Str("all")) == Str("all");
      var continuous := Put(Empty, "days", if all then days else Int(0));
      var motion := Put(Empty, "days", if isGlobal || !all then days else Int(0));
      Drop(Put(Put(record, "continuous", continuous), "motion", motion), "retain")
    else
      Drop(record, "retain")
  }

  /** The connection settings that stay in the global `genai` section. */
  predicate ProviderKey(k: string) {
    k == "model" || k == "provider" || k == "base_url" || k == "api_key"
  }

  /** The entries of dict `g` whose key satisfies (or fails) `ProviderKey`, in order. */
  function GenaiPart(g: JSON, provider: bool): JSON {
    if g.Obj? then
      Obj(FilterKeys(g.keys, provider), map k | k in g.values && ProviderKey(k) == provider :: g.values[k])
    else Empty
  }

  function FilterKeys(keys: seq<string>, provider: bool): (r: seq<string>)
    ensures forall k :: k in r <==> k in keys && ProviderKey(k) == provider
  {
    if keys == [] then []
    else (if ProviderKey(keys[0]) == provider then [keys[0]] else []) + FilterKeys(keys[1..], provider)
  }

  /** `migrate_017_0` on one camera copy: per-camera genai moves under `objects`. */
  function Camera017(name: string, camera: JSON): JSON {
    var c1 := if Given(Field(camera, "record"), "retain") then Put(camera, "record", RetainSplit(Field(camera, "record"), false))
              else camera;
    if Given(c1, "genai") then
      Drop(Put(c1, "objects", Put(Field(c1, "objects"), "genai", Field(c1, "genai"))), "genai")
    else c1
  }

  /** `migrate_017_0`. */
  function Migrate0170(config: JSON): Step {
    var n1 := if Given(Field(config, "record"), "retain") then Put(config, "record", RetainSplit(Field(config, "record"), true))
              else config;
    var genai := Field(config, "genai");
    var objects := Put(Field(config, "objects"), "genai", GenaiPart(genai, false));
    var global := if Truthy(genai) then Put(Put(n1, "genai", GenaiPart(genai, true)), "objects", objects) else n1;
    var shared := if Truthy(genai) && Has(config, "objects") then Put(n1, "objects", objects) else n1;
    Finish(global, shared, config, Camera017, "0.17-0")
  }

  // -------------------------------------------------------------- 0.18-0

  /** The roles a migrated single genai provider is given. */
  const AllRoles: JSON := Arr([Str("embeddings"), Str("vision"), Str("tools")])

  /** `d.get(k) is not None`. */
  predicate NotNone(d: JSON, k: string) {
    Get(d, k).Some? && Get(d, k).value != Null
  }

  /** The record object without `sync_recordings` and `export.timelapse_args`, an emptied `export` removed. */
  function RecordCleaned(record: JSON): JSON {
    var r1 := if NotNone(record, "sync_recordings") then Drop(record, "sync_recordings") else record;
    if NotNone(Field(r1, "export"), "timelapse_args") then
      var exportSection := Drop(Field(r1, "export"), "timelapse_args");
      if Truthy(exportSection) then Put(r1, "export", exportSection) else Drop(r1, "export")
    else r1
  }

  /** The record cleanup on one section; an emptied record is removed once `timelapse_args` went. */
  function CleanRecord(c: JSON): (r: JSON)
    ensures forall k :: k != "record" ==> Get(r, k) == Get(c, k)
  {
    var record := RecordCleaned(Field(c, "record"));
    if !NotNone(Field(c, "record"), "sync_recordings") && !NotNone(Field(Field(c, "record"), "export"), "timelapse_args") then c
    else if NotNone(Field(Field(c, "record"), "export"), "timelapse_args") && !Truthy(record) then Drop(c, "record")
    else Put(c, "record", record)
  }

  /** A mask that is set, not null and not yet a dict is converted. */
  predicate LegacyMaskAt(section: JSON) {
    Truthy(section) && Has(section, "mask") && section.values["mask"] != Null && !section.values["mask"].Obj?
  }

  /** The section with its legacy `mask` converted. */
  function ConvertMask(section: JSON, maskType: string, objectLabel: string): JSON {
    if LegacyMaskAt(section) then Put(section, "mask", LegacyMask(section.values["mask"], maskType, objectLabel)) else section
  }

  /** An object filter's legacy mask, numbered and named after the object. */
  function FilterMask(objectName: string, filter: JSON): JSON {
    if filter.Obj? && Has(filter, "mask") then ConvertMask(filter, "object_mask", objectName) else filter
  }

  /** The objects section with its own mask and every filter's mask converted. */
  function ObjectsMasks(objects: JSON): JSON {
    var o1 := ConvertMask(objects, "object_mask", "");
    if Truthy(objects) && Has(objects, "filters") then Put(o1, "filters", EachEntry(Field(o1, "filters"), FilterMask)) else o1
  }

  /** The mask conversions on one section: motion, objects, object filters. */
  function ConvertMasks(c: JSON): (r: JSON)
    ensures forall k :: k != "motion" && k != "objects" ==> Get(r, k) == Get(c, k)
  {
    var c1 := if LegacyMaskAt(Field(c, "motion")) then Put(c, "motion", ConvertMask(Field(c, "motion"), "motion_mask", "")) else c;
    var objects := Field(c1, "objects");
    if Truthy(objects) && (Has(objects, "mask") || Has(objects, "filters")) then Put(c1, "objects", ObjectsMasks(objects)) else c1
  }

  function Camera018(name: string, camera: JSON): JSON {
    ConvertMasks(CleanRecord(camera))
  }

  /** A genai section with a provider set. */
  predicate SingleProvider(config: JSON) {
    Given(config, "genai") && Given(Field(config, "genai"), "provider")
  }

  /** `migrate_018_0`. */
  function Migrate0180(config: JSON): Step {
    var genai := Put(Field(config, "genai"), "roles", AllRoles);
    var n1 := if SingleProvider(config) then Put(config, "genai", Obj(["default"], map["default" := genai])) else config;
    var s1 := if SingleProvider(config) then Put(config, "genai", genai) else config;
    var s2 := if Has(config, "record") then Put(s1, "record", RecordCleaned(Field(s1, "record"))) else s1;
    Finish(ConvertMasks(CleanRecord(n1)), ConvertMasks(s2), config, Camera018, "0.18-0")
  }

  // --------------------------------------------------------- legacy masks

  /** The name `_convert_legacy_mask_to_dict` gives mask number n. */
  function MaskName(maskType: string, objectLabel: string, n: nat): string {
    if objectLabel != "" then "Object Mask " + Text.NatToString(n) + " (" + objectLabel + ")"
    else Text.Title(Text.ReplaceChar(maskType, '_', ' ')) + " " + Text.NatToString(n)
  }

  /** The key of mask number n. */
  function MaskKey(maskType: string, n: nat): string {
    maskType + "_" + Text.NatToString(n)
  }

  /** The converted entry for mask number n. */
  function MaskEntry(maskType: string, objectLabel: string, n: nat, coordinates: JSON): JSON {
    Obj(["friendly_name", "enabled", "coordinates"],
        map["friendly_name" := Str(MaskName(maskType, objectLabel, n)), "enabled" := Bool(true), "coordinates" := coordinates])
  }

  /** The entries for the masks of a list, numbered by position from 1, empty entries skipped. */
  function MaskEntries(items: seq<JSON>, maskType: string, objectLabel: string): (r: JSON)
    ensures r.Obj?
    decreases |items|
  {
    if items == [] then Empty
    else
      var d := MaskEntries(items[..|items| - 1], maskType, objectLabel);
      var last := items[|items| - 1];
      if Truthy(last) then Set(d, MaskKey(maskType, |items|), MaskEntry(maskType, objectLabel, |items|, last)) else d
  }

  /** `_convert_legacy_mask_to_dict`. */
  function LegacyMask(mask: JSON, maskType: string, objectLabel: string): (r: JSON)
    ensures r.Obj?
  {
    if !Truthy(mask) then Empty
    else if mask.Str? then Obj([MaskKey(maskType, 1)], map[MaskKey(maskType, 1) := MaskEntry(maskType, objectLabel, 1, mask)])
    else if mask.Arr? then MaskEntries(mask.items, maskType, objectLabel)
    else Empty
  }

  /** `_convert_legacy_mask_to_dict`, building the result entry by entry as the source does. */
  method ConvertLegacyMask(mask: JSON, maskType: string, objectLabel: string) returns (result: JSON)
    ensures result == LegacyMask(mask, maskType, objectLabel)
  {
    if !Truthy(mask) {
      return Empty;
    }
    result := Empty;
    if mask.Str? {
      result := Set(result, MaskKey(maskType, 1), MaskEntry(maskType, objectLabel, 1, mask));
    } else if mask.Arr? {
      for i := 0 to |mask.items|
        invariant result == MaskEntries(mask.items[..i], maskType, objectLabel)
      {
        assert mask.items[..i + 1][..i] == mask.items[..i];
        if Truthy(mask.items[i]) {
          result := Set(result, MaskKey(maskType, i + 1), MaskEntry(maskType, objectLabel, i + 1, mask.items[i]));
        }
      }
      assert mask.items[..|mask.items|] == mask.items;
    }
  }

  /** Different mask numbers give different keys. */
  lemma MaskKeyInjective(maskType: string, n: nat, m: nat)
    requires MaskKey(maskType, n) == MaskKey(maskType, m)
    ensures n == m
  {
    var p := maskType + "_";
    assert MaskKey(maskType, n)[|p|..] == Text.NatToString(n);
    assert MaskKey(maskType, m)[|p|..] == Text.NatToString(m);
    Text.DigitsOfNatToString(n);
    Text.DigitsOfNatToString(m);
  }

  /** A list of masks yields no key numbered past its length. */
  lemma {:induction false} MaskEntriesBeyond(items: seq<JSON>, maskType: string, objectLabel: string, n: nat)
    requires n > |items|
    ensures Get(MaskEntries(items, maskType, objectLabel), MaskKey(maskType, n)) == None
    decreases |items|
  {
    if items != [] {
      MaskEntriesBeyond(items[..|items| - 1], maskType, objectLabel, n);
      if MaskKey(maskType, |items|) == MaskKey(maskType, n) {
        MaskKeyInjective(maskType, |items|, n);
      }
    }
  }

  /**
   * A list of masks: the key numbered i+1 holds the entry for item i,
   * named and numbered after its position, exactly when that item is set.
   */
  lemma {:induction false} MaskEntriesAt(items: seq<JSON>, maskType: string, objectLabel: string, i: nat)
    requires i < |items|
    ensures Get(MaskEntries(items, maskType, objectLabel), MaskKey(maskType, i + 1))
            == if Truthy(items[i]) then Some(MaskEntry(maskType, objectLabel, i + 1, items[i])) else None
    decreases |items|
  {
    var front := items[..|items| - 1];
    if i < |items| - 1 {
      assert front[i] == items[i];
      MaskEntriesAt(front, maskType, objectLabel, i);
      if MaskKey(maskType, |items|) == MaskKey(maskType, i + 1) {
        MaskKeyInjective(maskType, |items|, i + 1);
      }
    } else {
      MaskEntriesBeyond(front, maskType, objectLabel, i + 1);
    }
  }

  /** Every key of a converted list is the key of a set item's position. */
  lemma {:induction false} MaskEntriesOnlyKeys(items: seq<JSON>, maskType: string, objectLabel: string, k: string)
    requires Get(MaskEntries(items, maskType, objectLabel), k).Some?
    ensures exists n :: 1 <= n <= |items| && Truthy(items[n - 1]) && k == MaskKey(maskType, n)
    decreases |items|
  {
    var front := items[..|items| - 1];
    if k != MaskKey(maskType, |items|) || !Truthy(items[|items| - 1]) {
      MaskEntriesOnlyKeys(front, maskType, objectLabel, k);
      var n :| 1 <= n <= |front| && Truthy(front[n - 1]) && k == MaskKey(maskType, n);
      assert items[n - 1] == front[n - 1];
    }
  }

  /** A falsy mask converts to `{}`, a string to the single entry numbered 1. */
  lemma LegacyMaskScalar(mask: JSON, maskType: string, objectLabel: string)
    ensures !Truthy(mask) ==> LegacyMask(mask, maskType, objectLabel) == Empty
    ensures Truthy(mask) && mask.Str? ==>
              var r := LegacyMask(mask, maskType, objectLabel);
              r.keys == [MaskKey(maskType, 1)] && Get(r, MaskKey(maskType, 1)) == Some(MaskEntry(maskType, objectLabel, 1, mask))
  {
  }

  // ------------------------------------------------------------- lemmas

  /**
   * `migrate_014` on a section with required zones: they end up in
   * `review.alerts.required_zones` unless that was already set, they leave
   * `record.events`, and an emptied `events` or `record` is removed.
   */
  lemma MoveZonesEffect(c: JSON)
    requires Truthy(EventZones(c))
    ensures var r := MoveZones(c).section;
      && Field(Field(Field(r, "review"), "alerts"), "required_zones")
         == (if Given(Field(Field(c, "review"), "alerts"), "required_zones")
             then Field(Field(Field(c, "review"), "alerts"), "required_zones") else EventZones(c))
      && Get(Field(Field(r, "record"), "events"), "required_zones") == None
      && (Has(r, "record") ==> Truthy(Field(r, "record")))
      && (Has(Field(r, "record"), "events") ==> Truthy(Field(Field(r, "record"), "events")))
  {
  }

  /** `migrate_015_0` leaves the top-level `review` section alone, in its result and in place. */
  lemma KeepsReview0150(config: JSON)
    ensures Get(Migrate0150(config).written, "review") == Get(config, "review")
    ensures Get(Migrate0150(config).seen, "review") == Get(config, "review")
  {
  }

  /** So does `migrate_015_1`. */
  lemma KeepsReview0151(config: JSON)
    ensures Get(Migrate0151(config).written, "review") == Get(config, "review")
    ensures Get(Migrate0151(config).seen, "review") == Get(config, "review")
  {
  }

  /** So does `migrate_016_0`. */
  lemma KeepsReview0160(config: JSON, str: JSON -> string)
    ensures Get(Migrate0160(config, str).written, "review") == Get(config, "review")
    ensures Get(Migrate0160(config, str).seen, "review") == Get(config, "review")
  {
  }

  /** So does `migrate_017_0`. */
  lemma KeepsReview0170(config: JSON)
    ensures Get(Migrate0170(config).written, "review") == Get(config, "review")
    ensures Get(Migrate0170(config).seen, "review") == Get(config, "review")
  {
  }

  /** So does `migrate_018_0`. */
  lemma KeepsReview0180(config: JSON)
    ensures Get(Migrate0180(config).written, "review") == Get(config, "review")
    ensures Get(Migrate0180(config).seen, "review") == Get(config, "review")
  {
  }

  /**
   * `migrate_014` on a config with required zones and no `review` section:
   * the zones reach `review.alerts.required_zones` of the returned dict,
   * while the handed-in dict loses them from `record.events` and gets no
   * `review` section.
   */
  lemma ZonesMovedBy014(config: JSON)
    requires Truthy(EventZones(config)) && !Has(config, "review")
    ensures Field(Field(Field(Migrate014(config).written, "review"), "alerts"), "required_zones") == EventZones(config)
    ensures Get(Migrate014(config).seen, "review") == None
    ensures Get(Field(Field(Migrate014(config).seen, "record"), "events"), "required_zones") == None
  {
    MoveZonesEffect(config);
    assert Get(Migrate014(config).written, "review") == Get(MoveZones(config).section, "review");
    assert Get(Migrate014(config).seen, "record") == Some(ZonesRecord(config));
  }

  /**
   * The retention built from legacy events: their `retain.default` becomes
   * `retain.days`, and `pre_capture` and `post_capture` are carried over
   * exactly when they are set.
   */
  lemma RetentionOf(events: JSON)
    ensures var r := Retention(events);
            var retain := Field(events, "retain");
            && Get(Field(r, "retain"), "days") == (if Given(retain, "default") then Some(Field(retain, "default")) else None)
            && Get(r, "pre_capture") == (if Given(events, "pre_capture") then Some(Field(events, "pre_capture")) else None)
            && Get(r, "post_capture") == (if Given(events, "post_capture") then Some(Field(events, "post_capture")) else None)
  {
  }

  /**
   * `migrate_015_0` on one section: legacy `record.events` gives alerts their
   * retention, and detections the same unless alerts have required zones
   * and no detections section exists, in which case detections are kept
   * as long as continuous recordings (1 day when unset). `events` is removed,
   * the rest of `record` is kept; a section without events is unchanged.
   */
  lemma SplitEventsEffect(c: JSON)
    ensures var record := Field(SplitEvents(c), "record");
            var events := Field(Field(c, "record"), "events");
            Truthy(events) ==>
              && Get(record, "alerts") == Some(Retention(events))
              && Get(record, "detections") == Some(if DetectionsFollowEvents(c) then Retention(events) else ContinuousRetention(c))
              && Get(record, "events") == None
              && forall k :: k != "alerts" && k != "detections" && k != "events" ==> Get(record, k) == Get(Field(c, "record"), k)
    ensures !Truthy(Field(Field(c, "record"), "events")) ==> SplitEvents(c) == c
  {
  }

  /** `migrate_015_1`: every detector with a model path set gets it as `model_path`; the others are kept. */
  lemma DetectorsMoved0151(config: JSON)
    ensures var detectors := Field(Migrate0151(config).written, "detectors");
            forall name :: Has(Field(config, "detectors"), name) ==>
              Get(detectors, name) == Some(DetectorModelPath(name, Field(Field(config, "detectors"), name)))
  {
    var w := Migrate0151(config).written;
    assert Get(w, "detectors") == Get(Global0151(config), "detectors");
  }

  /**
   * `migrate_016_0` sets `detect.enabled` when it is unset and leaves a set
   * value alone; when the config has no `detect` section, the handed-in
   * dict does not get one.
   */
  lemma DetectEnabled0160(config: JSON, str: JSON -> string)
    ensures DetectUnset(config) ==> Get(Field(Migrate0160(config, str).written, "detect"), "enabled") == Some(Bool(true))
    ensures !DetectUnset(config) ==> Get(Migrate0160(config, str).written, "detect") == Get(config, "detect")
    ensures !Has(config, "detect") ==> Get(Migrate0160(config, str).seen, "detect") == None
  {
  }

  /**
   * Five movement weights become six, and weights are changed at most once:
   * migrating the result again keeps it.
   */
  lemma WeightsOnce(w: JSON)
    ensures FiveWeights(w) ==> Weights(w).Str? && |Text.Split(Weights(w).s, ',')| == 6
    ensures Weights(Weights(w)) == Weights(w)
  {
    if FiveWeights(w) {
      assert w.s + ", 0" == w.s + [','] + " 0";
      Text.SplitConcat(w.s, " 0", ',');
      Text.SplitNoSep(" 0", ',');
      assert !FiveWeights(Weights(w));
    }
  }

  /** `migrate_016_0` on a camera: a live `stream_name` n becomes `streams` {n: n}. */
  lemma LiveStreams0160(camera: JSON, str: JSON -> string)
    requires Has(Field(camera, "live"), "stream_name")
    ensures var live := Field(Camera016(camera, str), "live");
            && Get(live, "stream_name") == None
            && Get(live, "streams") == Some(StreamsOf(Field(camera, "live").values["stream_name"], str))
  {
  }

  /**
   * `record.retain` with days set: mode "all" (the default) keeps continuous
   * recordings that many days, and, globally, motion recordings too; any
   * other mode keeps only motion recordings, the other section at 0 days.
   * Without days the only change is that `retain` is removed. Either way
   * the rest of `record` is kept.
   */
  lemma RetainSplitDays(record: JSON, isGlobal: bool)
    ensures var r := RetainSplit(record, isGlobal);
            var retain := Field(record, "retain");
            var days := Field(retain, "days");
            var all := GetOr(retain, "mode", Str("all")) == Str("all");
            && (Truthy(days) && all ==>
                  Field(Field(r, "continuous"), "days") == days
                  && Field(Field(r, "motion"), "days") == if isGlobal then days else Int(0))
            && (Truthy(days) && !all ==>
                  Field(Field(r, "continuous"), "days") == Int(0) && Field(Field(r, "motion"), "days") == days)
            && (!Truthy(days) ==> r == Drop(record, "retain"))
            && forall k :: k != "retain" && k != "continuous" && k != "motion" ==> Get(r, k) == Get(record, k)
  {
  }

  /** The genai split is a partition: each key of a dict lands in exactly one part, with its value. */
  lemma GenaiPartition(g: JSON, k: string)
    requires g.Obj?
    ensures Get(GenaiPart(g, ProviderKey(k)), k) == Get(g, k)
    ensures Get(GenaiPart(g, !ProviderKey(k)), k) == None
  {
  }

  /**
   * `migrate_017_0` on a global genai section: the connection settings stay
   * in `genai`, the rest moves to `objects.genai`; the handed-in dict keeps
   * its genai section.
   */
  lemma GenaiSplit0170(config: JSON)
    requires Truthy(Field(config, "genai"))
    ensures var w := Migrate0170(config).written;
            && Get(w, "genai") == Some(GenaiPart(Field(config, "genai"), true))
            && Get(Field(w, "objects"), "genai") == Some(GenaiPart(Field(config, "genai"), false))
    ensures Get(Migrate0170(config).seen, "genai") == Get(config, "genai")
  {
  }

  /**
   * `migrate_018_0` on a single genai provider: it becomes the provider named
   * `default`, with every role and all its settings; another genai section is
   * kept as it is.
   */
  lemma GenaiWrapped0180(config: JSON)
    ensures var w := Migrate0180(config).written;
            SingleProvider(config) ==>
              var d := Field(Field(w, "genai"), "default");
              && Field(w, "genai").keys == ["default"]
              && Get(d, "roles") == Some(AllRoles)
              && forall k :: k != "roles" ==> Get(d, k) == Get(Field(config, "genai"), k)
    ensures !SingleProvider(config) ==> Get(Migrate0180(config).written, "genai") == Get(config, "genai")
  {
  }

  /** A section without required zones is left as it is by the move. */
  lemma MoveZonesOnlyWithZones(c: JSON)
    requires !Truthy(EventZones(c))
    ensures MoveZones(c).section == c
  {
  }

  /** After `migrate_014` neither rtmp setting is left on the global config or on any camera. */
  lemma NoRtmpAfter014(config: JSON)
    ensures var w := Migrate014(config).written;
      && !Given(w, "rtmp") && !HasOutputRtmp(w)
      && forall name :: Has(Field(config, "cameras"), name) ==>
           var cam := Field(Field(w, "cameras"), name);
           !Given(cam, "rtmp") && !HasOutputRtmp(cam)
  {
    var w := Migrate014(config).written;
    var g := Global014(config);
    assert Field(w, "rtmp") == Field(g, "rtmp") && Field(w, "ffmpeg") == Field(g, "ffmpeg");
    forall name | Has(Field(config, "cameras"), name)
      ensures !Given(Field(Field(w, "cameras"), name), "rtmp") && !HasOutputRtmp(Field(Field(w, "cameras"), name))
    {
      assert Field(Field(w, "cameras"), name) == Camera014(name, Field(Field(config, "cameras"), name));
    }
  }
}
