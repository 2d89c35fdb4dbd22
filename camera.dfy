/**
 * One camera's configuration: the rewrite of the raw settings before
 * validation (zone colours, the roles of a lone input), the frame shapes and
 * display name, and the ffmpeg command line built for every input.
 */
module Camera {
  import opened Wrappers
  import Json
  import Text
  import Names
  import Seqs

  // ------------------------------------------------------------ zone colours

  /** The colour of zone i: its dict with "color" set. */
  function ZoneWithColour(zones: map<string, Json.JSON>, keys: seq<string>, colors: seq<Json.JSON>, i: nat): Json.JSON
    requires i < |keys| && i < |colors| && keys[i] in zones && zones[keys[i]].Obj?
  {
    Json.Set(zones[keys[i]], "color", colors[i])
  }

  /** The values of the first `n` zones, each extended (or overwritten) with its palette colour. */
  function RecolouredValues(zones: map<string, Json.JSON>, keys: seq<string>, colors: seq<Json.JSON>, n: nat): map<string, Json.JSON>
    requires n <= |keys| && n <= |colors|
    requires forall i :: 0 <= i < n ==> keys[i] in zones && zones[keys[i]].Obj?
  {
    if n == 0 then map[]
    else RecolouredValues(zones, keys, colors, n - 1)[keys[n - 1] := ZoneWithColour(zones, keys, colors, n - 1)]
  }

  /** Each zone, paired in order with the next palette colour, gets that colour under "color"; zones beyond the palette are dropped. */
  function Recoloured(zones: map<string, Json.JSON>, keys: seq<string>, colors: seq<Json.JSON>, n: nat): Json.JSON
    requires n <= |keys| && n <= |colors|
    requires forall i :: 0 <= i < n ==> keys[i] in zones && zones[keys[i]].Obj?
  {
    Json.Obj(keys[..n], RecolouredValues(zones, keys, colors, n))
  }

  /** The names of the first `n` zones. */
  function FirstKeys(keys: seq<string>, n: nat): set<string>
    requires n <= |keys|
  {
    if n == 0 then {} else FirstKeys(keys, n - 1) + {keys[n - 1]}
  }

  /** The first `n` zones and no others are present, zone i with colour i. */
  lemma RecolouredAt(zones: map<string, Json.JSON>, keys: seq<string>, colors: seq<Json.JSON>, n: nat)
    requires n <= |keys| && n <= |colors|
    requires forall i :: 0 <= i < n ==> keys[i] in zones && zones[keys[i]].Obj?
    requires Json.Distinct(keys)
    ensures var m := RecolouredValues(zones, keys, colors, n);
            && m.Keys == FirstKeys(keys, n)
            && (forall i :: 0 <= i < n ==> keys[i] in m && m[keys[i]] == ZoneWithColour(zones, keys, colors, i))
  {
    RecolouredKeys(zones, keys, colors, n);
    forall i | 0 <= i < n
      ensures var m := RecolouredValues(zones, keys, colors, n);
              keys[i] in m && m[keys[i]] == ZoneWithColour(zones, keys, colors, i)
    {
      RecolouredZone(zones, keys, colors, n, i);
    }
  }

  /** The recoloured zones are named by the first `n` keys. */
  lemma {:induction false} RecolouredKeys(zones: map<string, Json.JSON>, keys: seq<string>, colors: seq<Json.JSON>, n: nat)
    requires n <= |keys| && n <= |colors|
    requires forall i :: 0 <= i < n ==> keys[i] in zones && zones[keys[i]].Obj?
    ensures RecolouredValues(zones, keys, colors, n).Keys == FirstKeys(keys, n)
  {
    if n > 0 {
      RecolouredKeys(zones, keys, colors, n - 1);
      KeysUnderUpdate(RecolouredValues(zones, keys, colors, n - 1), keys[n - 1], ZoneWithColour(zones, keys, colors, n - 1));
    }
  }

  /** Zone `i` among the first `n` has colour `i`. */
  lemma {:induction false} RecolouredZone(zones: map<string, Json.JSON>, keys: seq<string>, colors: seq<Json.JSON>, n: nat, i: nat)
    requires i < n <= |keys| && n <= |colors|
    requires forall i :: 0 <= i < n ==> keys[i] in zones && zones[keys[i]].Obj?
    requires Json.Distinct(keys)
    ensures var m := RecolouredValues(zones, keys, colors, n);
            keys[i] in m && m[keys[i]] == ZoneWithColour(zones, keys, colors, i)
  {
    if i < n - 1 {
      RecolouredZone(zones, keys, colors, n - 1, i);
      assert keys[i] != keys[n - 1];
    }
  }

  /** Updating a key of a map adds it to the keys. */
  lemma KeysUnderUpdate<K, V>(m: map<K, V>, k: K, v: V)
    ensures m[k := v].Keys == m.Keys + {k}
  {
  }

  /** A zone past the first `n` is not among them. */
  lemma {:induction false} LaterZoneNotFirst(keys: seq<string>, n: nat, j: nat)
    requires n <= j < |keys| && Json.Distinct(keys)
    ensures keys[j] !in FirstKeys(keys, n)
  {
    if n > 0 {
      LaterZoneNotFirst(keys, n - 1, j);
      assert keys[n - 1] != keys[j];
    }
  }

  /** The zones section is a dict of dicts whose key order lists each key once. */
  ghost predicate ZonesShape(zones: Json.JSON) {
    zones.Obj? && Json.DictShape(zones.keys, zones.values) && forall k :: k in zones.values ==> zones.values[k].Obj?
  }

  function Min(a: nat, b: nat): nat { if a <= b then a else b }

  /**
   * The zone step of `CameraConfig.__init__`: when the raw settings have
   * zones, the palette is asked for one colour per zone and the zones are
   * zipped with the colours it returns.
   */
  function ColourZones(config: Json.JSON, palette: nat -> seq<Json.JSON>): Json.JSON
    requires config.Obj?
    requires Json.Has(config, "zones") ==> ZonesShape(config.values["zones"])
  {
    if Json.Has(config, "zones") then
      var zones := config.values["zones"];
      var colors := palette(|zones.keys|);
      Json.Set(config, "zones", Recoloured(zones.values, zones.keys, colors, Min(|zones.keys|, |colors|)))
    else config
  }

  /** A zone dict after recolouring: the given colour, every other field as before. */
  ghost predicate ColouredZone(before: Json.JSON, after: Json.JSON, color: Json.JSON) {
    && Json.Get(after, "color") == Some(color)
    && forall f :: f != "color" ==> Json.Get(after, f) == Json.Get(before, f)
  }

  /** Setting the colour of a zone dict colours it. */
  lemma SetColour(z: Json.JSON, color: Json.JSON)
    requires z.Obj?
    ensures ColouredZone(z, Json.Set(z, "color", color), color)
  {
  }

  /**
   * With a palette that has a colour for every zone, the zones keep their
   * order, zone i gets colour i, and every other field of a zone is kept;
   * nothing but the zones changes.
   */
  lemma ZonesColoured(config: Json.JSON, palette: nat -> seq<Json.JSON>)
    requires config.Obj? && Json.Has(config, "zones") && ZonesShape(config.values["zones"])
    requires var zones := config.values["zones"]; |palette(|zones.keys|)| >= |zones.keys|
    ensures var zones := config.values["zones"];
            var colors := palette(|zones.keys|);
            var r := ColourZones(config, palette);
            && Json.Has(r, "zones")
            && r.values["zones"].keys == zones.keys
            && (forall i :: 0 <= i < |zones.keys| ==>
                  && Json.At(r, "zones", zones.keys[i]).Some?
                  && ColouredZone(zones.values[zones.keys[i]], Json.At(r, "zones", zones.keys[i]).value, colors[i]))
            && forall k :: k != "zones" ==> Json.Get(r, k) == Json.Get(config, k)
  {
    var zones := config.values["zones"];
    var n := |zones.keys|;
    var colors := palette(n);
    assert zones.keys[..n] == zones.keys;
    var z := Recoloured(zones.values, zones.keys, colors, n);
    var r := ColourZones(config, palette);
    assert r == Json.Set(config, "zones", z);
    RecolouredAt(zones.values, zones.keys, colors, n);
    forall i | 0 <= i < n
      ensures && Json.At(r, "zones", zones.keys[i]).Some?
              && ColouredZone(zones.values[zones.keys[i]], Json.At(r, "zones", zones.keys[i]).value, colors[i])
    {
      var k := zones.keys[i];
      assert Json.At(r, "zones", k) == Some(Json.Set(zones.values[k], "color", colors[i]));
      SetColour(zones.values[k], colors[i]);
    }
  }

  /** A palette shorter than the zone list drops the zones past its end, as `zip` does. */
  lemma ShortPaletteDropsZones(config: Json.JSON, palette: nat -> seq<Json.JSON>)
    requires config.Obj? && Json.Has(config, "zones") && ZonesShape(config.values["zones"])
    requires var zones := config.values["zones"]; |palette(|zones.keys|)| < |zones.keys|
    ensures var zones := config.values["zones"];
            var r := ColourZones(config, palette);
            && r.values["zones"].keys == zones.keys[..|palette(|zones.keys|)|]
            && Json.At(r, "zones", zones.keys[|zones.keys| - 1]).None?
  {
    var zones := config.values["zones"];
    var colors := palette(|zones.keys|);
    LastZoneDropped(zones.values, zones.keys, colors, |colors|);
  }

  /** Recolouring only the first `n` zones leaves the last zone out. */
  lemma LastZoneDropped(zones: map<string, Json.JSON>, keys: seq<string>, colors: seq<Json.JSON>, n: nat)
    requires n < |keys| && n <= |colors|
    requires forall i :: 0 <= i < n ==> keys[i] in zones && zones[keys[i]].Obj?
    requires Json.Distinct(keys)
    ensures keys[|keys| - 1] !in RecolouredValues(zones, keys, colors, n)
  {
    RecolouredAt(zones, keys, colors, n);
    LaterZoneNotFirst(keys, n, |keys| - 1);
  }

  // ------------------------------------------------------------ input roles

  /** `"audio" in roles` for a role setting that may be a list, a string or a dict. */
  predicate MentionsAudio(roles: Option<Json.JSON>) {
    match roles
    case Some(Arr(items)) => Json.Str("audio") in items
    case Some(Str(s)) => Text.Contains(s, "audio")
    case Some(Obj(_, values)) => "audio" in values
    case _ => false
  }

  /** The raw settings hold an `ffmpeg` dict whose `inputs` is a list; a lone input is a dict. */
  predicate InputsShape(config: Json.JSON) {
    && config.Obj? && Json.Has(config, "ffmpeg")
    && config.values["ffmpeg"].Obj? && Json.Has(config.values["ffmpeg"], "inputs")
    && config.values["ffmpeg"].values["inputs"].Arr?
    && (|config.values["ffmpeg"].values["inputs"].items| == 1 ==> config.values["ffmpeg"].values["inputs"].items[0].Obj?)
  }

  /** The roles a lone input is given. */
  function LoneInputRoles(hadAudio: bool): seq<Json.JSON> {
    [Json.Str("record"), Json.Str("detect")] + if hadAudio then [Json.Str("audio")] else []
  }

  /** The role step of `CameraConfig.__init__`. */
  function WithInputRoles(config: Json.JSON): Json.JSON
    requires InputsShape(config)
  {
    var ffmpeg := config.values["ffmpeg"];
    var inputs := ffmpeg.values["inputs"].items;
    if |inputs| == 1 then
      var roles := LoneInputRoles(MentionsAudio(Json.Get(inputs[0], "roles")));
      Json.Set(config, "ffmpeg", Json.Set(ffmpeg, "inputs", Json.Arr([Json.Set(inputs[0], "roles", Json.Arr(roles))])))
    else config
  }

  /**
   * A lone input records and detects, and keeps "audio" exactly when its own
   * roles mentioned it; its other fields, the other ffmpeg settings and the
   * rest of the camera are kept. With several inputs (or none) nothing changes.
   */
  lemma LoneInputRecordsAndDetects(config: Json.JSON)
    requires InputsShape(config)
    ensures var inputs := config.values["ffmpeg"].values["inputs"].items;
            var r := WithInputRoles(config);
            && (|inputs| != 1 ==> r == config)
            && (|inputs| == 1 ==>
                  var input := inputs[0];
                  var ffmpeg := r.values["ffmpeg"];
                  && InputsShape(r)
                  && ffmpeg.values["inputs"].items[0].Obj?
                  && |ffmpeg.values["inputs"].items| == 1
                  && Json.Get(ffmpeg.values["inputs"].items[0], "roles") == Some(Json.Arr(LoneInputRoles(MentionsAudio(Json.Get(input, "roles")))))
                  && (Json.Str("audio") in LoneInputRoles(MentionsAudio(Json.Get(input, "roles"))) <==> MentionsAudio(Json.Get(input, "roles")))
                  && (forall f :: f != "roles" ==> Json.Get(ffmpeg.values["inputs"].items[0], f) == Json.Get(input, f))
                  && (forall k :: k != "inputs" ==> Json.Get(ffmpeg, k) == Json.Get(config.values["ffmpeg"], k))
                  && (forall k :: k != "ffmpeg" ==> Json.Get(r, k) == Json.Get(config, k)))
  {
    var inputs := config.values["ffmpeg"].values["inputs"].items;
    if |inputs| == 1 {
      var audio := MentionsAudio(Json.Get(inputs[0], "roles"));
      assert Json.Str("audio") != Json.Str("record") && Json.Str("audio") != Json.Str("detect") by {
        assert "audio"[0] != "record"[0] && "audio"[0] != "detect"[0];
      }
    }
  }

  /** `CameraConfig.__init__` on the raw settings: zone colours first, then the input roles. */
  function PreparedConfig(config: Json.JSON, palette: nat -> seq<Json.JSON>): (r: Json.JSON)
    requires InputsShape(config)
    requires Json.Has(config, "zones") ==> ZonesShape(config.values["zones"])
    ensures InputsShape(ColourZones(config, palette))
  {
    var coloured := ColourZones(config, palette);
    assert "zones" != "ffmpeg";
    assert Json.Get(coloured, "ffmpeg") == Json.Get(config, "ffmpeg");
    WithInputRoles(coloured)
  }

  /**
   * The prepared settings: with a palette that has a colour for every zone,
   * the zones keep their order and zone i gets colour i, every other zone
   * field kept; a lone input records and detects, and keeps "audio" exactly
   * when its own roles mentioned it, every other input field kept; several
   * inputs (or none) are left alone; and nothing outside the zones and the
   * ffmpeg inputs changes.
   */
  lemma PreparedConfigComposed(config: Json.JSON, palette: nat -> seq<Json.JSON>)
    requires InputsShape(config)
    requires Json.Has(config, "zones") ==> ZonesShape(config.values["zones"])
    ensures var r := PreparedConfig(config, palette);
            && InputsShape(r)
            && (forall k :: k != "zones" && k != "ffmpeg" ==> Json.Get(r, k) == Json.Get(config, k))
            && (!Json.Has(config, "zones") ==> !Json.Has(r, "zones"))
            && (Json.Has(config, "zones") && |palette(|config.values["zones"].keys|)| >= |config.values["zones"].keys| ==>
                  var zones := config.values["zones"];
                  var colors := palette(|zones.keys|);
                  && Json.Has(r, "zones")
                  && r.values["zones"].keys == zones.keys
                  && forall i :: 0 <= i < |zones.keys| ==>
                       && Json.At(r, "zones", zones.keys[i]).Some?
                       && ColouredZone(zones.values[zones.keys[i]], Json.At(r, "zones", zones.keys[i]).value, colors[i]))
            && var inputs := config.values["ffmpeg"].values["inputs"].items;
               && (|inputs| != 1 ==> Json.Get(r, "ffmpeg") == Json.Get(config, "ffmpeg"))
               && (|inputs| == 1 ==>
                     var lone := r.values["ffmpeg"].values["inputs"].items;
                     && |lone| == 1
                     && Json.Get(lone[0], "roles") == Some(Json.Arr(LoneInputRoles(MentionsAudio(Json.Get(inputs[0], "roles")))))
                     && (forall f :: f != "roles" ==> Json.Get(lone[0], f) == Json.Get(inputs[0], f)))
  {
    var coloured := ColourZones(config, palette);
    assert "zones" != "ffmpeg";
    assert Json.Get(coloured, "ffmpeg") == Json.Get(config, "ffmpeg");
    assert forall k :: k != "zones" ==> Json.Get(coloured, k) == Json.Get(config, k);
    LoneInputRecordsAndDetects(coloured);
    if Json.Has(config, "zones") && |palette(|config.values["zones"].keys|)| >= |config.values["zones"].keys| {
      ZonesColoured(config, palette);
    }
  }

  // ------------------------------------------------------------ ffmpeg command

  /**
   * An argument setting: unset, one string to split, or a list of words.
   * Unset, the empty string and the empty list are falsy.
   */
  datatype Args = NoArgs | Line(s: string) | Words(items: seq<string>)

  predicate Truthy(a: Args) {
    match a
    case NoArgs => false
    case Line(s) => s != ""
    case Words(items) => items != []
  }

  /** Python's `a or b`. */
  function Or(a: Args, b: Args): Args {
    if Truthy(a) then a else b
  }

  /**
   * The helpers the command assembly calls and the constants it reads, none
   * of which is part of this model: `get_ffmpeg_arg_list`, the scale, decode,
   * input and record-output presets, `escape_special_characters`, CACHE_DIR
   * and CACHE_SEGMENT_FORMAT.
   */
  datatype Helpers = Helpers(
    argList: Args -> seq<string>,
    scale: (Args, seq<string>, int, int, int) -> seq<string>,
    decode: (Args, int, int, int, int) -> Args,
    input: (Args, int) -> Args,
    outputRecord: (Args, bool) -> Args,
    escape: string -> string,
    cacheDir: string,
    segmentFormat: string)

  datatype Detect = Detect(fps: int, width: int, height: int)

  /** One ffmpeg input of a camera. */
  datatype Input = Input(path: string, roles: seq<string>, globalArgs: Args, hwaccelArgs: Args, inputArgs: Args)

  /** The camera's ffmpeg section. */
  datatype Ffmpeg = Ffmpeg(
    path: string,
    globalArgs: Args,
    hwaccelArgs: Args,
    inputArgs: Args,
    detectArgs: Args,
    recordArgs: Args,
    appleCompatibility: bool,
    gpu: int,
    inputs: seq<Input>)

  /** What the command assembly reads from the camera. */
  datatype Settings = Settings(name: Option<string>, detect: Detect, recordEnabled: bool, ffmpeg: Ffmpeg)

  /** `os.path.join` of the cache directory and a camera name with no slash in it. */
  function SegmentPath(h: Helpers, name: string): string {
    h.cacheDir + "/" + name + "@" + h.segmentFormat + ".mp4"
  }

  const TypeError: string := "TypeError: expected str, bytes or os.PathLike object, not NoneType"

  /** The detect output: the scaled detect arguments, then the pipe. */
  function DetectOutputs(h: Helpers, s: Settings, i: Input): seq<string> {
    h.scale(Or(i.hwaccelArgs, s.ffmpeg.hwaccelArgs), h.argList(s.ffmpeg.detectArgs),
            s.detect.fps, s.detect.width, s.detect.height) + ["pipe:"]
  }

  /** The record output: the record arguments (a preset or the raw setting), then the cache segment. */
  function RecordOutputs(h: Helpers, s: Settings, name: string): seq<string> {
    h.argList(Or(h.outputRecord(s.ffmpeg.recordArgs, s.ffmpeg.appleCompatibility), s.ffmpeg.recordArgs))
      + [SegmentPath(h, name)]
  }

  predicate Records(s: Settings, i: Input) {
    "record" in i.roles && s.recordEnabled
  }

  /** The outputs of an input: record first, detect after; joining a missing camera name fails. */
  function OutputArgs(h: Helpers, s: Settings, i: Input): Result<seq<string>> {
    var detect := if "detect" in i.roles then DetectOutputs(h, s, i) else [];
    if Records(s, i) then
      if s.name.None? then Err(TypeError) else Ok(RecordOutputs(h, s, s.name.value) + detect)
    else Ok(detect)
  }

  /** The decode arguments: the input's preset or setting, else the camera's unless "auto", else none. */
  function HwaccelArgs(h: Helpers, s: Settings, i: Input): seq<string> {
    var d := s.detect;
    var camera := if s.ffmpeg.hwaccelArgs == Line("auto") then NoArgs else s.ffmpeg.hwaccelArgs;
    h.argList(Or(h.decode(i.hwaccelArgs, d.fps, d.width, d.height, s.ffmpeg.gpu),
              Or(i.hwaccelArgs,
              Or(h.decode(camera, d.fps, d.width, d.height, s.ffmpeg.gpu),
              Or(camera, Words([]))))))
  }

  /** The input arguments: the input's preset or setting, else the camera's preset or setting. */
  function InputArgs(h: Helpers, s: Settings, i: Input): seq<string> {
    h.argList(Or(h.input(i.inputArgs, s.detect.fps),
              Or(i.inputArgs,
              Or(h.input(s.ffmpeg.inputArgs, s.detect.fps), s.ffmpeg.inputArgs))))
  }

  /** The command with its empty arguments removed. */
  function NonEmpty(parts: seq<string>): (r: seq<string>)
    ensures forall p :: p in r <==> p in parts && p != ""
  {
    Seqs.Filter((p: string) => p != "", parts)
  }

  /** The command line before empty parts are dropped. */
  function CommandParts(h: Helpers, s: Settings, i: Input, outputs: seq<string>): seq<string> {
    [s.ffmpeg.path]
      + h.argList(Or(i.globalArgs, s.ffmpeg.globalArgs))
      + (if "detect" in i.roles then HwaccelArgs(h, s, i) else [])
      + InputArgs(h, s, i)
      + ["-i", h.escape(i.path)]
      + outputs
  }

  /** `_get_ffmpeg_cmd`: no command when the input has no output, else the assembled line. */
  function FfmpegCmd(h: Helpers, s: Settings, i: Input): Result<Option<seq<string>>> {
    match OutputArgs(h, s, i)
    case Err(e) => Err(e)
    case Ok(outputs) =>
      if outputs == [] then Ok(None) else Ok(Some(NonEmpty(CommandParts(h, s, i, outputs))))
  }

  /**
   * An input gets no command exactly when it neither detects nor records
   * with recording on; the only failure is a recording input of a camera
   * without a name.
   */
  lemma NoCommandIff(h: Helpers, s: Settings, i: Input)
    ensures FfmpegCmd(h, s, i) == Ok(None) <==> "detect" !in i.roles && !Records(s, i)
    ensures FfmpegCmd(h, s, i).Err? <==> Records(s, i) && s.name.None?
  {
  }

  /**
   * Every command has no empty part and reads its input with "-i"; a detect
   * input's command ends with the pipe output.
   */
  lemma CommandShape(h: Helpers, s: Settings, i: Input)
    requires FfmpegCmd(h, s, i).Ok? && FfmpegCmd(h, s, i).value.Some?
    ensures var c := FfmpegCmd(h, s, i).value.value;
            && "" !in c && "-i" in c && c != []
            && ("detect" in i.roles ==> c[|c| - 1] == "pipe:")
  {
    var outputs := OutputArgs(h, s, i).value;
    var parts := CommandParts(h, s, i, outputs);
    var c := NonEmpty(parts);
    assert "-i" in parts;
    if "detect" in i.roles {
      assert parts[|parts| - 1] == "pipe:";
      assert parts == parts[..|parts| - 1] + ["pipe:"];
      Seqs.FilterSnoc((p: string) => p != "", parts[..|parts| - 1], "pipe:");
    }
  }

  /**
   * For an input that both records and detects, the outputs are the record
   * outputs (ending with the cache segment) followed by the detect outputs.
   */
  lemma RecordBeforeDetect(h: Helpers, s: Settings, i: Input)
    requires "detect" in i.roles && Records(s, i) && s.name.Some?
    ensures OutputArgs(h, s, i).Ok?
    ensures OutputArgs(h, s, i).value
              == OutputArgs(h, s, i.(roles := ["record"])).value + OutputArgs(h, s, i.(roles := ["detect"])).value
    ensures var r := RecordOutputs(h, s, s.name.value);
            OutputArgs(h, s, i).value[|r| - 1] == SegmentPath(h, s.name.value)
  {
    assert "detect" !in ["record"] by { assert "detect"[0] != "record"[0]; }
    assert "record" !in ["detect"];
  }

  /**
   * The decode arguments reach only detect inputs: the command of any other
   * input is the same whatever the decode and scale presets, the input's and
   * the camera's hwaccel settings and the GPU index are.
   */
  lemma HwaccelOnlyForDetect(h: Helpers, s: Settings, i: Input,
                             decode: (Args, int, int, int, int) -> Args, scale: (Args, seq<string>, int, int, int) -> seq<string>,
                             cameraHwaccel: Args, gpu: int, inputHwaccel: Args)
    requires "detect" !in i.roles
    ensures FfmpegCmd(h, s, i)
         == FfmpegCmd(h.(decode := decode, scale := scale),
                      s.(ffmpeg := s.ffmpeg.(hwaccelArgs := cameraHwaccel, gpu := gpu)),
                      i.(hwaccelArgs := inputHwaccel))
  {
    var h' := h.(decode := decode, scale := scale);
    var s' := s.(ffmpeg := s.ffmpeg.(hwaccelArgs := cameraHwaccel, gpu := gpu));
    var i' := i.(hwaccelArgs := inputHwaccel);
    assert OutputArgs(h, s, i) == OutputArgs(h', s', i');
    assert InputArgs(h, s, i) == InputArgs(h', s', i');
    if OutputArgs(h, s, i).Ok? {
      var outputs := OutputArgs(h, s, i).value;
      assert CommandParts(h, s, i, outputs) == CommandParts(h', s', i', outputs);
    }
  }

  // ------------------------------------------------------------ the command list

  /** One entry of `ffmpeg_cmds`: the input's roles and its command. */
  datatype CmdEntry = CmdEntry(roles: seq<string>, cmd: seq<string>)

  /** `create_ffmpeg_cmds` over the inputs, in order, skipping those without a command. */
  function Commands(h: Helpers, s: Settings, inputs: seq<Input>): Result<seq<CmdEntry>> {
    if inputs == [] then Ok([])
    else
      var prev := Commands(h, s, inputs[..|inputs| - 1]);
      var last := inputs[|inputs| - 1];
      if prev.Err? then prev
      else
        match FfmpegCmd(h, s, last)
        case Err(e) => Err(e)
        case Ok(None) => prev
        case Ok(Some(c)) => Ok(prev.value + [CmdEntry(last.roles, c)])
  }

  /**
   * The list fails exactly when some input's command fails. Otherwise every
   * entry is the command of one of the inputs, with that input's roles, and
   * every input with a command has its entry.
   */
  lemma {:induction false} CommandsComplete(h: Helpers, s: Settings, inputs: seq<Input>)
    ensures Commands(h, s, inputs).Err? <==> exists i :: i in inputs && FfmpegCmd(h, s, i).Err?
    ensures Commands(h, s, inputs).Ok? ==>
              var es := Commands(h, s, inputs).value;
              && (forall e :: e in es ==> exists i :: i in inputs && e.roles == i.roles && FfmpegCmd(h, s, i) == Ok(Some(e.cmd)))
              && (forall i, c :: i in inputs && FfmpegCmd(h, s, i) == Ok(Some(c)) ==> CmdEntry(i.roles, c) in es)
    decreases |inputs|
  {
    if inputs != [] {
      var init := inputs[..|inputs| - 1];
      var last := inputs[|inputs| - 1];
      CommandsComplete(h, s, init);
      assert inputs == init + [last];
      assert forall i :: i in inputs <==> i in init || i == last;
    }
  }

  /** Commands for the given inputs and no others, no entry without a command. */
  lemma {:induction false} CommandsCount(h: Helpers, s: Settings, inputs: seq<Input>)
    requires Commands(h, s, inputs).Ok?
    ensures |Commands(h, s, inputs).value| <= |inputs|
    ensures (forall i :: i in inputs ==> "detect" in i.roles || Records(s, i)) ==> |Commands(h, s, inputs).value| == |inputs|
    decreases |inputs|
  {
    if inputs != [] {
      var init := inputs[..|inputs| - 1];
      var last := inputs[|inputs| - 1];
      assert Commands(h, s, init).Ok?;
      CommandsCount(h, s, init);
      NoCommandIff(h, s, last);
      assert forall i :: i in init ==> i in inputs;
    }
  }

  // ------------------------------------------------------------ the camera

  class CameraConfig {
    const name: Option<string>
    const friendlyName: Option<string>
    const detect: Detect
    const recordEnabled: bool
    const ffmpeg: Ffmpeg
    /** `_ffmpeg_cmds`, unset until `create_ffmpeg_cmds` has run. */
    var ffmpegCmds: Option<seq<CmdEntry>>

    constructor (name: Option<string>, friendlyName: Option<string>, detect: Detect, recordEnabled: bool, ffmpeg: Ffmpeg)
      ensures this.name == name && this.friendlyName == friendlyName && this.detect == detect
      ensures this.recordEnabled == recordEnabled && this.ffmpeg == ffmpeg
      ensures ffmpegCmds == None
    {
      this.name := name;
      this.friendlyName := friendlyName;
      this.detect := detect;
      this.recordEnabled := recordEnabled;
      this.ffmpeg := ffmpeg;
      ffmpegCmds := None;
    }

    function Config(): Settings {
      Settings(name, detect, recordEnabled, ffmpeg)
    }

    /** `frame_shape`: (height, width) of the detect stream. */
    function FrameShape(): (r: (int, int))
      ensures r.0 == detect.height && r.1 == detect.width
    {
      (detect.height, detect.width)
    }

    /** `frame_shape_yuv`: the same width, and one and a half times the height, rounded down. */
    function FrameShapeYuv(): (r: (int, int))
      ensures r.1 == FrameShape().1
      ensures 2 * r.0 <= 3 * FrameShape().0 < 2 * r.0 + 2
    {
      (detect.height * 3 / 2, detect.width)
    }

    /** `get_formatted_name`: an unnamed camera without a friendly name is "". */
    function FormattedName(): (r: string)
      ensures Names.IsSet(friendlyName) ==> r == friendlyName.value
      ensures !Names.IsSet(friendlyName) && (name.None? || name.value == "") ==> r == ""
      ensures !Names.IsSet(friendlyName) && name.Some? ==> |r| == |name.value|
    {
      Names.FormattedName(friendlyName, name.GetOr(""))
    }

    /** `_get_ffmpeg_cmd`: the outputs are built first, then the line around them. */
    method GetFfmpegCmd(h: Helpers, input: Input) returns (r: Result<Option<seq<string>>>)
      ensures r == FfmpegCmd(h, Config(), input)
    {
      var s := Config();
      var outputs: seq<string> := [];
      if "detect" in input.roles {
        outputs := DetectOutputs(h, s, input) + outputs;
        assert outputs == DetectOutputs(h, s, input);
      }
      if "record" in input.roles && recordEnabled {
        if name.None? {
          return Err(TypeError);
        }
        outputs := RecordOutputs(h, s, name.value) + outputs;
      }
      assert OutputArgs(h, s, input) == Ok(outputs);
      if |outputs| == 0 {
        return Ok(None);
      }
      r := Ok(Some(NonEmpty(CommandParts(h, s, input, outputs))));
    }

    /**
     * `create_ffmpeg_cmds`: once computed the list is kept; otherwise every
     * input with a command contributes an entry, and a failing input leaves
     * the list unset.
     */
    method CreateFfmpegCmds(h: Helpers) returns (error: Option<string>)
      modifies this
      ensures old(ffmpegCmds).Some? ==> ffmpegCmds == old(ffmpegCmds) && error.None?
      ensures old(ffmpegCmds).None? ==>
                match Commands(h, Config(), ffmpeg.inputs)
                case Ok(es) => ffmpegCmds == Some(es) && error.None?
                case Err(e) => ffmpegCmds == None && error == Some(e)
    {
      if ffmpegCmds.Some? {
        return None;
      }
      var s := Config();
      var inputs := ffmpeg.inputs;
      var cmds: seq<CmdEntry> := [];
      for k := 0 to |inputs|
        invariant Commands(h, s, inputs[..k]) == Ok(cmds)
        invariant ffmpegCmds == None
      {
        var cmd := GetFfmpegCmd(h, inputs[k]);
        CommandsStep(h, s, inputs, k);
        match cmd {
          case Err(e) =>
            assert Commands(h, s, inputs[..k + 1]) == Err(e);
            PrefixErrStays(h, s, inputs, k + 1);
            assert Commands(h, s, inputs) == Err(e);
            return Some(e);
          case Ok(None) =>
          case Ok(Some(c)) =>
            cmds := cmds + [CmdEntry(inputs[k].roles, c)];
        }
      }
      assert inputs[..|inputs|] == inputs;
      ffmpegCmds := Some(cmds);
      error := None;
    }
  }

  /** The list for one more input. */
  lemma CommandsStep(h: Helpers, s: Settings, inputs: seq<Input>, k: nat)
    requires k < |inputs| && Commands(h, s, inputs[..k]).Ok?
    ensures Commands(h, s, inputs[..k + 1])
         == match FfmpegCmd(h, s, inputs[k])
            case Err(e) => Err(e)
            case Ok(None) => Commands(h, s, inputs[..k])
            case Ok(Some(c)) => Ok(Commands(h, s, inputs[..k]).value + [CmdEntry(inputs[k].roles, c)])
  {
    assert inputs[..k + 1][..k] == inputs[..k];
  }

  /** Once a prefix of the inputs fails, the whole list fails with the same error. */
  lemma {:induction false} PrefixErrStays(h: Helpers, s: Settings, inputs: seq<Input>, k: nat)
    requires k <= |inputs| && Commands(h, s, inputs[..k]).Err?
    ensures Commands(h, s, inputs) == Commands(h, s, inputs[..k])
    decreases |inputs| - k
  {
    if k < |inputs| {
      assert inputs[..k + 1][..k] == inputs[..k];
      PrefixErrStays(h, s, inputs, k + 1);
    } else {
      assert inputs[..k] == inputs;
    }
  }
}
