/**
 * The container start-up step that writes the go2rtc restreamer's
 * configuration from the go2rtc section of the Frigate configuration:
 * defaults for the API origin, Home Assistant, logging, WebRTC candidates
 * and the ffmpeg binary; environment substitution in the RTSP credentials
 * and stream sources; the refusal of arbitrary-exec sources unless they are
 * explicitly allowed; and the birdseye restream.
 *
 * `str.format(**FRIGATE_ENV_VARS)` is the parameter `substitute`, None
 * where formatting raises; the hardware-acceleration encoder preset is the
 * parameter `encode`.
 */
module Go2rtcConfig {
  import opened Wrappers
  import opened Json
  import Text
  import Seqs

  /** The values the script takes from the application constants. */
  datatype Build = Build(defaultFfmpegVersion: string, includedFfmpegVersions: set<string>, libavformatMajor: int, birdseyePipe: string)

  /** Why the script stops: a failed substitution exits, a non-string source raises. */
  const KeyError: string := "KeyError"
  const AttributeError: string := "AttributeError"

  // ------------------------------------------------------------- the exec flag

  /**
   * Where the flag is read: the environment variable, else the secret file
   * of that name (stripped) when the secrets directory is readable and holds
   * it, else the key of the add-on options file; Null when none applies.
   */
  function ExecSetting(env: Option<string>, secret: Option<string>, options: Option<JSON>): (v: JSON)
    ensures env.Some? ==> v == Str(env.value)
    ensures env.None? && secret.Some? ==> v == Str(Text.Strip(secret.value))
    ensures env.None? && secret.None? && options.None? ==> v == Null
  {
    if env.Some? then Str(env.value)
    else if secret.Some? then Str(Text.Strip(secret.value))
    else if options.Some? then GetOr(options.value, "go2rtc_allow_arbitrary_exec", Null)
    else Null
  }

  /** `str(v)` for the scalar values; a list, dict or float never prints as one of the accepted words. */
  function PyStr(v: JSON): Option<string> {
    match v
    case Str(s) => Some(s)
    case Bool(b) => Some(if b then "True" else "False")
    case Int(i) => Some(if i < 0 then "-" + Text.NatToString(-i) else Text.NatToString(i))
    case Null => Some("None")
    case _ => None
  }

  const ExecWords: set<string> := {"true", "1", "yes"}

  /** `ALLOW_ARBITRARY_EXEC`: a set value whose text, lower-cased, is "true", "1" or "yes". */
  predicate AllowArbitraryExec(setting: JSON) {
    setting != Null && PyStr(setting).Some? && Text.Lower(PyStr(setting).value) in ExecWords
  }

  /** Exec sources stay disabled when nothing sets the flag. */
  lemma ExecOffByDefault()
    ensures !AllowArbitraryExec(ExecSetting(None, None, None))
  {
  }

  /** YAML's `true` and `1` enable exec sources as the words do; `false`, `0` and a list do not. */
  lemma ExecFlagScalars()
    ensures AllowArbitraryExec(Bool(true)) && !AllowArbitraryExec(Bool(false))
    ensures AllowArbitraryExec(Int(1)) && !AllowArbitraryExec(Int(0))
    ensures !AllowArbitraryExec(Arr([Str("true")]))
  {
    assert Text.Lower("True") == "true" by {
      assert Text.Lower("True") == [Text.ToLower('T')] + Text.Lower("rue");
    }
    assert |Text.Lower("False")| == 5;
    assert Text.NatToString(1) == "1" && Text.Lower("1") == "1";
    assert Text.NatToString(0) == "0";
  }

  /** The flag ignores case: "TRUE" and "Yes" enable exec sources. */
  lemma ExecFlagIgnoresCase(s: string)
    ensures AllowArbitraryExec(Str(s)) <==> AllowArbitraryExec(Str(Text.Lower(s)))
  {
    var l := Text.Lower(s);
    assert Text.Lower(l) == l by {
      assert forall i :: 0 <= i < |l| ==> Text.ToLower(l[i]) == l[i];
    }
  }

  // ------------------------------------------------------------- defaults

  /** `d.get(k) is None`: absent or null. */
  predicate IsUnset(d: JSON, k: string) {
    Get(d, k).None? || Get(d, k) == Some(Null)
  }

  /** A section the script reads into: unset, or a dict. */
  predicate SectionShape(g: JSON, section: string) {
    IsUnset(g, section) || Get(g, section).value.Obj?
  }

  /**
   * The default-filling pattern: an unset section becomes `{key: value}`;
   * a section whose key is unset gains it; a set key is kept.
   */
  method FillDefault(g: JSON, section: string, key: string, value: JSON) returns (r: JSON)
    requires g.Obj? && SectionShape(g, section)
    ensures r.Obj? && forall k :: k != section ==> Get(r, k) == Get(g, k)
    ensures Get(r, section).Some? && Get(r, section).value.Obj?
    ensures At(r, section, key) == if IsUnset(g, section) || IsUnset(g.values[section], key) then Some(value) else At(g, section, key)
    ensures !IsUnset(g, section) ==> forall k :: k != key ==> Get(r.values[section], k) == Get(g.values[section], k)
    ensures IsUnset(g, section) ==> forall k :: k != key ==> !Has(r.values[section], k)
  {
    if IsUnset(g, section) {
      r := Set(g, section, Set(Empty, key, value));
    } else if IsUnset(g.values[section], key) {
      r := Set(g, section, Set(g.values[section], key, value));
    } else {
      r := g;
    }
  }

  /** The Home Assistant default: `{"config": "/homeassistant"}`. */
  const HassDefault: JSON := Obj(["config"], map["config" := Str("/homeassistant")])

  /** The default WebRTC candidates: the internal one when discovered, then the STUN server. */
  function DefaultCandidates(internal: Option<string>): (r: seq<JSON>)
    ensures |r| >= 1 && r[|r| - 1] == Str("stun:8555")
    ensures internal.Some? ==> r == [Str(internal.value), Str("stun:8555")]
    ensures internal.None? ==> r == [Str("stun:8555")]
  {
    (if internal.Some? then [Str(internal.value)] else []) + [Str("stun:8555")]
  }

  /** The RTSP credential `key` with the environment substituted in, when it is set. */
  function Credential(g: JSON, key: string, substitute: string -> Option<string>): (r: Result<JSON>)
    requires g.Obj? && SectionShape(g, "rtsp")
    requires !IsUnset(g, "rtsp") && !IsUnset(g.values["rtsp"], key) ==> g.values["rtsp"].values[key].Str?
    ensures r.Ok? ==> r.value.Obj? && SectionShape(r.value, "rtsp") && forall k :: k != "rtsp" ==> Get(r.value, k) == Get(g, k)
    ensures r.Ok? && (IsUnset(g, "rtsp") || IsUnset(g.values["rtsp"], key)) ==> r.value == g
    ensures r.Ok? ==> forall k :: k != key ==> At(r.value, "rtsp", k) == At(g, "rtsp", k)
    ensures r.Err? <==> !IsUnset(g, "rtsp") && !IsUnset(g.values["rtsp"], key) && substitute(g.values["rtsp"].values[key].s).None?
    ensures r.Ok? && !IsUnset(g, "rtsp") && !IsUnset(g.values["rtsp"], key) ==>
              At(r.value, "rtsp", key) == Some(Str(substitute(g.values["rtsp"].values[key].s).value))
  {
    if IsUnset(g, "rtsp") || IsUnset(g.values["rtsp"], key) then Ok(g)
    else
      var rtsp := g.values["rtsp"];
      match substitute(rtsp.values[key].s)
      case None => Err(KeyError)
      case Some(t) => Ok(Set(g, "rtsp", Set(rtsp, key, Str(t))))
  }

  /**
   * The ffmpeg binary: the bundled default version for "default", a bundled
   * version by its name, any other value as an installation directory.
   */
  function FfmpegPath(path: string, b: Build): (r: string)
    ensures path == "default" ==> r == "/usr/lib/ffmpeg/" + b.defaultFfmpegVersion + "/bin/ffmpeg"
    ensures path != "default" && path in b.includedFfmpegVersions ==> r == "/usr/lib/ffmpeg/" + path + "/bin/ffmpeg"
    ensures path != "default" && path !in b.includedFfmpegVersions ==> r == path + "/bin/ffmpeg"
    ensures Text.EndsWith(r, "/bin/ffmpeg")
  {
    var r := if path == "default" then "/usr/lib/ffmpeg/" + b.defaultFfmpegVersion + "/bin/ffmpeg"
             else if path in b.includedFfmpegVersions then "/usr/lib/ffmpeg/" + path + "/bin/ffmpeg"
             else path + "/bin/ffmpeg";
    assert r[|r| - |"/bin/ffmpeg"|..] == "/bin/ffmpeg";
    r
  }

  /** The RTSP input arguments for ffmpeg before libavformat 59. */
  const RtspArgs: string := "-fflags nobuffer -flags low_delay -stimeout 10000000 -user_agent go2rtc/ffmpeg -rtsp_transport tcp -i {input}"

  // ------------------------------------------------------------- restricted sources

  /** `is_restricted_source`: the stripped source starts with "echo:", "expr:" or "exec:". */
  predicate IsRestrictedSource(source: string) {
    var t := Text.Strip(source);
    Text.StartsWith(t, "echo:") || Text.StartsWith(t, "expr:") || Text.StartsWith(t, "exec:")
  }

  /** Leading whitespace does not hide a restricted source. */
  lemma LeadingSpaceIgnored(source: string)
    ensures IsRestrictedSource(" " + source) <==> IsRestrictedSource(source)
  {
    assert (" " + source)[1..] == source;
    assert Text.LStripSpace(" " + source) == Text.LStripSpace(source);
  }

  /** One source with the environment substituted in: a source that is not a string raises, a failed substitution exits. */
  function Format(item: JSON, substitute: string -> Option<string>): (r: Result<string>)
    ensures r.Ok? <==> item.Str? && substitute(item.s).Some?
    ensures r.Ok? ==> r.value == substitute(item.s).value
  {
    if !item.Str? then Err(AttributeError)
    else match substitute(item.s)
      case None => Err(KeyError)
      case Some(f) => Ok(f)
  }

  /** Every source of a list formatted, in order; the first failure stops the script. */
  function Formatted(items: seq<JSON>, substitute: string -> Option<string>): (r: Result<seq<string>>)
    ensures r.Ok? ==> |r.value| == |items|
    decreases |items|
  {
    if items == [] then Ok([])
    else match Formatted(items[..|items| - 1], substitute)
      case Err(e) => Err(e)
      case Ok(front) =>
        match Format(items[|items| - 1], substitute)
        case Err(e) => Err(e)
        case Ok(f) => Ok(front + [f])
  }

  /** The list loop: each source formatted, a restricted one dropped unless exec is allowed. */
  function FilterSources(items: seq<JSON>, allow: bool, substitute: string -> Option<string>): (r: Result<seq<string>>)
    ensures r.Ok? ==> |r.value| <= |items|
    ensures r.Ok? && !allow ==> forall i :: 0 <= i < |r.value| ==> !IsRestrictedSource(r.value[i])
    decreases |items|
  {
    if items == [] then Ok([])
    else match FilterSources(items[..|items| - 1], allow, substitute)
      case Err(e) => Err(e)
      case Ok(kept) =>
        match Format(items[|items| - 1], substitute)
        case Err(e) => Err(e)
        case Ok(f) => Ok(if !allow && IsRestrictedSource(f) then kept else kept + [f])
  }

  /** A source survives the list loop. */
  function Survives(allow: bool): string -> bool {
    f => allow || !IsRestrictedSource(f)
  }

  /** The list loop keeps exactly the formatted sources that are not restricted, in their order. */
  lemma {:induction false} FilterSourcesIsFilter(items: seq<JSON>, allow: bool, substitute: string -> Option<string>)
    ensures Formatted(items, substitute).Err? ==> FilterSources(items, allow, substitute).Err?
    ensures Formatted(items, substitute).Ok? ==>
              FilterSources(items, allow, substitute) == Ok(Seqs.Filter(Survives(allow), Formatted(items, substitute).value))
    decreases |items|
  {
    if items == [] {
      assert Seqs.Filter(Survives(allow), []) == [];
    } else {
      var front := items[..|items| - 1];
      FilterSourcesIsFilter(front, allow, substitute);
      var last := Format(items[|items| - 1], substitute);
      if Formatted(front, substitute).Err? {
        assert Formatted(items, substitute).Err? && FilterSources(items, allow, substitute).Err?;
      } else if last.Err? {
        assert Formatted(items, substitute).Err? && FilterSources(items, allow, substitute).Err?;
      } else {
        var fs := Formatted(front, substitute).value;
        var f := last.value;
        var kept := FilterSources(front, allow, substitute).value;
        assert kept == Seqs.Filter(Survives(allow), fs);
        assert Formatted(items, substitute).value == fs + [f];
        assert FilterSources(items, allow, substitute) == Ok(if !allow && IsRestrictedSource(f) then kept else kept + [f]);
        assert Survives(allow)(f) == !(!allow && IsRestrictedSource(f));
        Seqs.FilterSnoc(Survives(allow), fs, f);
        if Survives(allow)(f) {
          assert Seqs.Filter(Survives(allow), fs + [f]) == kept + [f];
        } else {
          assert kept + [] == kept;
          assert Seqs.Filter(Survives(allow), fs + [f]) == kept;
        }
      }
    }
  }

  /** With exec allowed, nothing is dropped. */
  lemma ExecAllowedKeepsAll(items: seq<JSON>, substitute: string -> Option<string>)
    ensures Formatted(items, substitute).Ok? ==> FilterSources(items, true, substitute) == Formatted(items, substitute)
  {
    FilterSourcesIsFilter(items, true, substitute);
    if Formatted(items, substitute).Ok? {
      var fs := Formatted(items, substitute).value;
      KeepAll(fs);
    }
  }

  lemma {:induction false} KeepAll(fs: seq<string>)
    ensures Seqs.Filter(Survives(true), fs) == fs
  {
    if fs != [] {
      KeepAll(fs[..|fs| - 1]);
      assert fs[..|fs| - 1] + [fs[|fs| - 1]] == fs;
    }
  }

  /**
   * One stream: a string source is formatted and removed when restricted;
   * a list keeps its surviving sources and is removed when none survive;
   * anything else is left alone. Ok(None) is a removal.
   */
  function RestrictStream(stream: JSON, allow: bool, substitute: string -> Option<string>): (r: Result<Option<JSON>>)
  {
    if stream.Str? then
      match Format(stream, substitute)
      case Err(e) => Err(e)
      case Ok(f) => Ok(if !allow && IsRestrictedSource(f) then None else Some(Str(f)))
    else if stream.Arr? then
      match FilterSources(stream.items, allow, substitute)
      case Err(e) => Err(e)
      case Ok(kept) => Ok(if kept != [] then Some(Arr(Seqs.Map(f => Str(f), kept))) else None)
    else Ok(Some(stream))
  }

  /** The step of the stream loop for one stream. */
  function StepOf(allow: bool, substitute: string -> Option<string>): JSON -> Result<Option<JSON>> {
    stream => RestrictStream(stream, allow, substitute)
  }

  /** The stream loop over the first names of the streams dict. */
  function RestrictStreams(streams: JSON, names: seq<string>, step: JSON -> Result<Option<JSON>>): (r: Result<JSON>)
    requires streams.Obj?
    ensures r.Ok? ==> r.value.Obj?
    decreases |names|
  {
    if names == [] then Ok(streams)
    else match RestrictStreams(streams, names[..|names| - 1], step)
      case Err(e) => Err(e)
      case Ok(s) =>
        var name := names[|names| - 1];
        match step(GetOr(s, name, Null))
        case Err(e) => Err(e)
        case Ok(None) => Ok(Del(s, name))
        case Ok(Some(v)) => Ok(Set(s, name, v))
  }

  /** A stream that exec sources cannot reach: no string or list entry holds a restricted source, and no list is empty. */
  predicate SafeStream(v: JSON) {
    && (v.Str? ==> !IsRestrictedSource(v.s))
    && (v.Arr? ==> v.items != [] && forall i :: 0 <= i < |v.items| ==> v.items[i].Str? && !IsRestrictedSource(v.items[i].s))
  }

  /** What a step may leave under a stream's name: nothing, a safe stream, or the untouched value when it holds no source. */
  predicate SafeOutcome(stream: JSON, r: Result<Option<JSON>>) {
    r.Ok? && r.value.Some? ==> SafeStream(r.value.value) || (r.value.value == stream && !stream.Str? && !stream.Arr?)
  }

  /** With exec disallowed, one stream ends removed, safe, or untouched. */
  lemma RestrictStreamSafe(stream: JSON, substitute: string -> Option<string>)
    ensures SafeOutcome(stream, RestrictStream(stream, false, substitute))
  {
    if stream.Arr? && FilterSources(stream.items, false, substitute).Ok? {
      var kept := FilterSources(stream.items, false, substitute).value;
      var v := Seqs.Map(f => Str(f), kept);
      assert forall i :: 0 <= i < |v| ==> v[i] == Str(kept[i]);
    }
  }

  /** What the loop leaves under a name it visited. */
  predicate Restricted(orig: Option<JSON>, now: Option<JSON>) {
    now.None? || SafeStream(now.value) || (now == orig && !now.value.Str? && !now.value.Arr?)
  }

  /**
   * Over the distinct stream names, with a step that leaves only safe
   * outcomes, every visited stream ends removed, safe, or untouched, and
   * every other stream is unchanged.
   */
  lemma {:induction false} StreamsRestricted(streams: JSON, names: seq<string>, step: JSON -> Result<Option<JSON>>)
    requires streams.Obj? && Distinct(names) && (forall n :: n in names ==> Has(streams, n))
    requires forall x :: SafeOutcome(x, step(x))
    requires RestrictStreams(streams, names, step).Ok?
    ensures var r := RestrictStreams(streams, names, step).value;
            && (forall k :: k !in names ==> Get(r, k) == Get(streams, k))
            && (forall k :: k in names ==> Restricted(Get(streams, k), Get(r, k)))
    decreases |names|
  {
    if names != [] {
      var front := names[..|names| - 1];
      var name := names[|names| - 1];
      assert Distinct(front) by {
        forall a, b | 0 <= a < b < |front| ensures front[a] != front[b] {
          assert front[a] == names[a] && front[b] == names[b];
        }
      }
      assert name !in front by {
        forall i | 0 <= i < |front| ensures front[i] != name { assert front[i] == names[i]; }
      }
      StreamsRestricted(streams, front, step);
      var s := RestrictStreams(streams, front, step).value;
      var r := RestrictStreams(streams, names, step).value;
      var cur := GetOr(s, name, Null);
      assert name in names && Has(streams, name);
      assert Get(s, name) == Get(streams, name);
      assert Get(s, name) == Some(cur);
      assert SafeOutcome(cur, step(cur));
      forall k | k in names ensures Restricted(Get(streams, k), Get(r, k)) {
        if k != name { assert k in front; }
      }
    }
  }

  /** With exec disallowed, the stream loop leaves no restricted source behind. */
  lemma NoRestrictedSourceLeft(streams: JSON, substitute: string -> Option<string>)
    requires streams.Obj? && WellFormed(streams)
    requires RestrictStreams(streams, streams.keys, StepOf(false, substitute)).Ok?
    ensures var r := RestrictStreams(streams, streams.keys, StepOf(false, substitute)).value;
            forall k :: Has(r, k) ==> SafeStream(r.values[k]) || (Get(r, k) == Get(streams, k) && !r.values[k].Str? && !r.values[k].Arr?)
  {
    var step := StepOf(false, substitute);
    forall x ensures SafeOutcome(x, step(x)) {
      RestrictStreamSafe(x, substitute);
    }
    StreamsRestricted(streams, streams.keys, step);
  }

  // ------------------------------------------------------------- the script

  /** The list loop of one stream. */
  method FilterStreamList(items: seq<JSON>, allow: bool, substitute: string -> Option<string>) returns (r: Result<seq<string>>)
    ensures r == FilterSources(items, allow, substitute)
  {
    var filtered: seq<string> := [];
    for i := 0 to |items|
      invariant FilterSources(items[..i], allow, substitute) == Ok(filtered)
    {
      assert items[..i + 1][..i] == items[..i];
      var formatted := Format(items[i], substitute);
      if formatted.Err? {
        FilterSourcesStayErr(items, i + 1, allow, substitute);
        return Err(formatted.error);
      }
      if !allow && IsRestrictedSource(formatted.value) {
        continue;
      }
      filtered := filtered + [formatted.value];
    }
    assert items[..|items|] == items;
    r := Ok(filtered);
  }

  lemma {:induction false} FilterSourcesStayErr(items: seq<JSON>, n: nat, allow: bool, substitute: string -> Option<string>)
    requires n <= |items| && FilterSources(items[..n], allow, substitute).Err?
    ensures FilterSources(items, allow, substitute) == FilterSources(items[..n], allow, substitute)
    decreases |items|
  {
    if n == |items| {
      assert items[..n] == items;
    } else {
      var front := items[..|items| - 1];
      assert front[..n] == items[..n];
      FilterSourcesStayErr(front, n, allow, substitute);
    }
  }

  /** The stream loop: each named stream restricted in turn, removed or replaced in the dict. */
  method RestrictStreamsLoop(streams: JSON, names: seq<string>, allow: bool, substitute: string -> Option<string>) returns (r: Result<JSON>)
    requires streams.Obj?
    ensures r == RestrictStreams(streams, names, StepOf(allow, substitute))
  {
    var step := StepOf(allow, substitute);
    var current := streams;
    for i := 0 to |names|
      invariant RestrictStreams(streams, names[..i], step) == Ok(current)
    {
      assert names[..i + 1][..i] == names[..i];
      var name := names[i];
      var stream := GetOr(current, name, Null);
      var outcome := RestrictOne(stream, allow, substitute);
      assert outcome == step(stream);
      if outcome.Err? {
        RestrictStreamsStayErr(streams, names, i + 1, step);
        return Err(outcome.error);
      }
      if outcome.value.None? {
        current := Del(current, name);
      } else {
        current := Set(current, name, outcome.value.value);
      }
    }
    assert names[..|names|] == names;
    r := Ok(current);
  }

  /** One stream of the loop: a URL string formatted and checked, a list filtered, anything else kept. */
  method RestrictOne(stream: JSON, allow: bool, substitute: string -> Option<string>) returns (outcome: Result<Option<JSON>>)
    ensures outcome == RestrictStream(stream, allow, substitute)
  {
    if stream.Str? {
      var formatted := Format(stream, substitute);
      outcome := if formatted.Err? then Err(formatted.error)
                 else if !allow && IsRestrictedSource(formatted.value) then Ok(None)
                 else Ok(Some(Str(formatted.value)));
    } else if stream.Arr? {
      var filtered := FilterStreamList(stream.items, allow, substitute);
      outcome := if filtered.Err? then Err(filtered.error)
                 else if filtered.value != [] then Ok(Some(Arr(Seqs.Map(f => Str(f), filtered.value))))
                 else Ok(None);
    } else {
      outcome := Ok(Some(stream));
    }
  }

  lemma {:induction false} RestrictStreamsStayErr(streams: JSON, names: seq<string>, n: nat, step: JSON -> Result<Option<JSON>>)
    requires streams.Obj? && n <= |names| && RestrictStreams(streams, names[..n], step).Err?
    ensures RestrictStreams(streams, names, step) == RestrictStreams(streams, names[..n], step)
    decreases |names|
  {
    if n == |names| {
      assert names[..n] == names;
    } else {
      var front := names[..|names| - 1];
      assert front[..n] == names[..n];
      RestrictStreamsStayErr(streams, front, n, step);
    }
  }

  /** `str(n)` for an integer. */
  function IntText(n: int): string {
    if n < 0 then "-" + Text.NatToString(-n) else Text.NatToString(n)
  }

  /** The raw-video input of the birdseye restream, with its frame size. */
  function BirdseyeInput(width: int, height: int, pipe: string): string {
    "-f rawvideo -pix_fmt yuv420p -video_size " + IntText(width) + "x" + IntText(height) + " -r 10 -i " + pipe
  }

  const BirdseyeOutput: string := "-rtsp_transport tcp -f rtsp {output}"

  /** An integer setting of a dict, with its default. */
  function IntOr(d: JSON, k: string, default: int): int
    requires !Has(d, k) || d.values[k].Int?
  {
    if Has(d, k) then d.values[k].i else default
  }

  /** A set RTSP credential is a string (the script calls `format` on it). */
  predicate CredentialShape(g: JSON, key: string) {
    SectionShape(g, "rtsp") && (!IsUnset(g, "rtsp") && !IsUnset(g.values["rtsp"], key) ==> g.values["rtsp"].values[key].Str?)
  }

  /** What the script needs of the go2rtc section: the sections it reads into are dicts, the credentials strings. */
  predicate Go2rtcShape(g: JSON) {
    && g.Obj?
    && SectionShape(g, "api") && SectionShape(g, "log") && SectionShape(g, "webrtc") && SectionShape(g, "ffmpeg")
    && DictOrAbsent(g, "rtsp") && CredentialShape(g, "username") && CredentialShape(g, "password")
    && DictOrAbsent(g, "streams")
  }

  /** The birdseye frame size, when set, is an integer. */
  predicate BirdseyeShape(config: JSON) {
    var birdseye := GetOr(config, "birdseye", Empty);
    (!Has(birdseye, "width") || birdseye.values["width"].Int?) && (!Has(birdseye, "height") || birdseye.values["height"].Int?)
  }

  /** The ffmpeg path, when set, is a string. */
  predicate PathShape(config: JSON) {
    var ffmpeg := GetOr(config, "ffmpeg", Empty);
    !Has(ffmpeg, "path") || ffmpeg.values["path"].Str?
  }

  /** What the script needs of the configuration to run to the end. */
  predicate ConfigShape(config: JSON) {
    && config.Obj?
    && DictOrAbsent(config, "go2rtc") && DictOrAbsent(config, "ffmpeg") && DictOrAbsent(config, "birdseye")
    && PathShape(config) && BirdseyeShape(config)
    && Go2rtcShape(GetOr(config, "go2rtc", Empty))
  }

  /** The value a default fills in unless the section already sets it. */
  function Filled(g: JSON, section: string, key: string, value: JSON): Option<JSON> {
    if IsUnset(g, section) || IsUnset(g.values[section], key) then Some(value) else At(g, section, key)
  }

  /** A section read through two dicts that agree on it. */
  lemma AtFrame(g: JSON, h: JSON, a: string, b: string)
    requires Get(g, a) == Get(h, a)
    ensures At(g, a, b) == At(h, a, b)
  {
  }

  /** A default filled into two dicts that agree on its section. */
  lemma FilledFrame(g: JSON, h: JSON, section: string, key: string, value: JSON)
    requires Get(g, section) == Get(h, section)
    ensures Filled(g, section, key, value) == Filled(h, section, key, value)
  {
  }

  /** The CORS origin, Home Assistant, log format and WebRTC candidate defaults. */
  method FillDefaults(g0: JSON, internal: Option<string>) returns (g: JSON)
    requires g0.Obj? && SectionShape(g0, "api") && SectionShape(g0, "log") && SectionShape(g0, "webrtc")
    ensures g.Obj?
    ensures At(g, "api", "origin") == Filled(g0, "api", "origin", Str("*"))
    ensures Get(g, "hass") == if IsUnset(g0, "hass") then Some(HassDefault) else Get(g0, "hass")
    ensures At(g, "log", "format") == Filled(g0, "log", "format", Str("text"))
    ensures At(g, "webrtc", "candidates") == Filled(g0, "webrtc", "candidates", Arr(DefaultCandidates(internal)))
    ensures forall k :: k != "api" && k != "hass" && k != "log" && k != "webrtc" ==> Get(g, k) == Get(g0, k)
  {
    assert "api"[0] != "hass"[0] && "api"[0] != "log"[0] && "api"[0] != "webrtc"[0];
    assert "hass"[0] != "log"[0] && "hass"[0] != "webrtc"[0] && "log"[0] != "webrtc"[0];
    var g1 := FillDefault(g0, "api", "origin", Str("*"));
    var g2 := g1;
    if IsUnset(g1, "hass") {
      g2 := Set(g1, "hass", HassDefault);
      SetFrame(g1, "hass", HassDefault);
    }
    SectionsKept(g0, g1, g2, "api", "hass", "log", "webrtc");
    var g3 := FillDefault(g2, "log", "format", Str("text"));
    Untouched(g2, g3, "log", "webrtc");
    g := FillDefault(g3, "webrtc", "candidates", Arr(DefaultCandidates(internal)));
    SectionsChain(g0, g1, g2, g3, g, "api", "hass", "log", "webrtc");
    AtFrame(g, g1, "api", "origin");
    AtFrame(g, g3, "log", "format");
  }

  /** Setting a key leaves every other key as it was. */
  lemma SetFrame(g: JSON, key: string, v: JSON)
    requires g.Obj?
    ensures forall k :: k != key ==> Get(Set(g, key, v), k) == Get(g, k)
  {
  }

  /** Two updates of keys `a` and `b` leave the distinct keys `c` and `d` as they were. */
  lemma SectionsKept(g0: JSON, g1: JSON, g2: JSON, a: string, b: string, c: string, d: string)
    requires a != c && a != d && b != c && b != d
    requires forall k :: k != a ==> Get(g1, k) == Get(g0, k)
    requires forall k :: k != b ==> Get(g2, k) == Get(g1, k)
    ensures Get(g2, c) == Get(g0, c) && Get(g2, d) == Get(g0, d)
  {
  }

  /** A key other than the one an update changed reads the same. */
  lemma Untouched(g: JSON, h: JSON, changed: string, k: string)
    requires forall x :: x != changed ==> Get(h, x) == Get(g, x)
    requires k != changed
    ensures Get(h, k) == Get(g, k)
  {
  }

  /** Four updates of four distinct top-level keys, one after the other: each key keeps the value its own update gave it. */
  lemma SectionsChain(g0: JSON, g1: JSON, g2: JSON, g3: JSON, g: JSON, a: string, b: string, c: string, d: string)
    requires a != b && a != c && a != d && b != c && b != d && c != d
    requires forall k :: k != a ==> Get(g1, k) == Get(g0, k)
    requires forall k :: k != b ==> Get(g2, k) == Get(g1, k)
    requires forall k :: k != c ==> Get(g3, k) == Get(g2, k)
    requires forall k :: k != d ==> Get(g, k) == Get(g3, k)
    ensures Get(g, a) == Get(g1, a) && Get(g, b) == Get(g2, b) && Get(g, c) == Get(g3, c)
    ensures Get(g2, a) == Get(g1, a) && Get(g1, b) == Get(g0, b)
    ensures Get(g2, c) == Get(g0, c) && Get(g3, d) == Get(g0, d)
    ensures forall k :: k != a && k != b && k != c && k != d ==> Get(g, k) == Get(g0, k)
  {
  }

  /** The ffmpeg binary default and, for an ffmpeg older than libavformat 59, the RTSP input arguments. */
  method FillFfmpegDefaults(g0: JSON, ffmpegPath: string, libavformatMajor: int) returns (g: JSON)
    requires g0.Obj? && SectionShape(g0, "ffmpeg")
    ensures g.Obj?
    ensures At(g, "ffmpeg", "bin") == Filled(g0, "ffmpeg", "bin", Str(ffmpegPath))
    ensures libavformatMajor < 59 ==> At(g, "ffmpeg", "rtsp") == Filled(g0, "ffmpeg", "rtsp", Str(RtspArgs))
    ensures libavformatMajor >= 59 ==> At(g, "ffmpeg", "rtsp") == At(g0, "ffmpeg", "rtsp")
    ensures forall k :: k != "ffmpeg" ==> Get(g, k) == Get(g0, k)
  {
    assert "bin"[0] != "rtsp"[0];
    var g1 := FillDefault(g0, "ffmpeg", "bin", Str(ffmpegPath));
    assert IsUnset(g0, "ffmpeg") ==> !Has(g1.values["ffmpeg"], "rtsp");
    assert !IsUnset(g0, "ffmpeg") ==> Get(g1.values["ffmpeg"], "rtsp") == Get(g0.values["ffmpeg"], "rtsp");
    g := g1;
    if libavformatMajor < 59 {
      g := FillDefault(g1, "ffmpeg", "rtsp", Str(RtspArgs));
    }
  }

  /** A credential that is set but whose substitution fails (the script exits on the `KeyError`). */
  predicate CredentialFails(g: JSON, key: string, substitute: string -> Option<string>)
    requires SectionShape(g, "rtsp")
  {
    !IsUnset(g, "rtsp") && !IsUnset(g.values["rtsp"], key) && g.values["rtsp"].values[key].Str?
    && substitute(g.values["rtsp"].values[key].s).None?
  }

  /** The credential as the script leaves it: set credentials substituted, unset ones untouched. */
  predicate CredentialDone(g0: JSON, g: JSON, key: string, substitute: string -> Option<string>)
    requires SectionShape(g0, "rtsp")
  {
    if !IsUnset(g0, "rtsp") && !IsUnset(g0.values["rtsp"], key) && g0.values["rtsp"].values[key].Str? then
      && substitute(g0.values["rtsp"].values[key].s).Some?
      && At(g, "rtsp", key) == Some(Str(substitute(g0.values["rtsp"].values[key].s).value))
    else At(g, "rtsp", key) == At(g0, "rtsp", key)
  }

  /** The RTSP user name and password, formatted with the environment in that order. */
  method FormatCredentials(g: JSON, substitute: string -> Option<string>) returns (r: Result<JSON>)
    requires g.Obj? && CredentialShape(g, "username") && CredentialShape(g, "password")
    ensures r.Err? <==> CredentialFails(g, "username", substitute) || CredentialFails(g, "password", substitute)
    ensures r.Err? ==> r.error == KeyError
    ensures r.Ok? ==> r.value.Obj? && forall k :: k != "rtsp" ==> Get(r.value, k) == Get(g, k)
    ensures r.Ok? ==> CredentialDone(g, r.value, "username", substitute) && CredentialDone(g, r.value, "password", substitute)
  {
    assert "username"[0] != "password"[0];
    var user := Credential(g, "username", substitute);
    if user.Err? {
      return Err(KeyError);
    }
    assert At(user.value, "rtsp", "password") == At(g, "rtsp", "password");
    r := Credential(user.value, "password", substitute);
    if r.Err? {
      return Err(KeyError);
    }
  }

  /** The streams after the loop; an absent `streams` section stays absent. */
  function LoopedStreams(g: JSON, allow: bool, substitute: string -> Option<string>): (r: Result<Option<JSON>>)
    requires DictOrAbsent(g, "streams")
    ensures r.Ok? && r.value.Some? ==> r.value.value.Obj?
  {
    if !Has(g, "streams") then Ok(None)
    else
      var streams := g.values["streams"];
      match RestrictStreams(streams, streams.keys, StepOf(allow, substitute))
      case Err(e) => Err(e)
      case Ok(v) => Ok(Some(v))
  }

  /** The birdseye restream command: an ffmpeg encode of the raw birdseye pipe, run as an exec source. */
  function BirdseyeCommand(config: JSON, ffmpegPath: string, pipe: string, encode: (string, JSON, string, string) -> string): (cmd: string)
    requires BirdseyeShape(config)
    ensures Text.StartsWith(cmd, "exec:") && IsRestrictedSource(cmd)
  {
    var birdseye := GetOr(config, "birdseye", Empty);
    var input := BirdseyeInput(IntOr(birdseye, "width", 1280), IntOr(birdseye, "height", 720), pipe);
    var hwaccel := GetOr(GetOr(config, "ffmpeg", Empty), "hwaccel_args", Str(""));
    var cmd := "exec:" + encode(ffmpegPath, hwaccel, input, BirdseyeOutput);
    assert cmd[..|"exec:"|] == "exec:";
    Text.StripKeepsPrefix(cmd, "exec:");
    cmd
  }

  /** The streams with the birdseye restream: added to non-empty streams, or the only stream otherwise. */
  function WithBirdseye(streams: Option<JSON>, cmd: string): (r: JSON)
    requires streams.Some? ==> streams.value.Obj?
    ensures r.Obj? && Get(r, "birdseye") == Some(Str(cmd))
    ensures streams.Some? && Truthy(streams.value) ==> forall k :: k != "birdseye" ==> Get(r, k) == Get(streams.value, k)
    ensures !(streams.Some? && Truthy(streams.value)) ==> r.keys == ["birdseye"] && forall k :: k != "birdseye" ==> !Has(r, k)
  {
    if streams.Some? && Truthy(streams.value) then Set(streams.value, "birdseye", Str(cmd))
    else Obj(["birdseye"], map["birdseye" := Str(cmd)])
  }

  /** `birdseye.restream`, false when absent. */
  predicate Restream(config: JSON) {
    Truthy(GetOr(GetOr(config, "birdseye", Empty), "restream", Bool(false)))
  }

  /** The ffmpeg path setting, "default" when absent. */
  function PathSetting(config: JSON): string
    requires PathShape(config)
  {
    GetOr(GetOr(config, "ffmpeg", Empty), "path", Str("default")).s
  }

  /** A credential's state depends on the `rtsp` section alone. */
  lemma CredentialFrame(g0: JSON, g1: JSON, h0: JSON, h1: JSON, key: string, substitute: string -> Option<string>)
    requires Get(g0, "rtsp") == Get(g1, "rtsp") && Get(h0, "rtsp") == Get(h1, "rtsp") && SectionShape(g0, "rtsp")
    ensures SectionShape(g1, "rtsp")
    ensures CredentialFails(g0, key, substitute) == CredentialFails(g1, key, substitute)
    ensures CredentialDone(g0, h0, key, substitute) ==> CredentialDone(g1, h1, key, substitute)
  {
    AtFrame(h0, h1, "rtsp", key);
    AtFrame(g0, g1, "rtsp", key);
  }

  /** The stream loop depends on the `streams` section alone. */
  lemma LoopedFrame(g0: JSON, g1: JSON, allow: bool, substitute: string -> Option<string>)
    requires Get(g0, "streams") == Get(g1, "streams") && DictOrAbsent(g0, "streams")
    ensures DictOrAbsent(g1, "streams") && LoopedStreams(g0, allow, substitute) == LoopedStreams(g1, allow, substitute)
  {
  }

  /** The stream loop applied to the go2rtc section. */
  method RestrictSection(g: JSON, allow: bool, substitute: string -> Option<string>) returns (r: Result<JSON>)
    requires g.Obj? && DictOrAbsent(g, "streams")
    ensures r.Err? <==> LoopedStreams(g, allow, substitute).Err?
    ensures r.Err? ==> r.error == LoopedStreams(g, allow, substitute).error
    ensures r.Ok? ==> r.value.Obj? && Get(r.value, "streams") == LoopedStreams(g, allow, substitute).value
    ensures r.Ok? ==> forall k :: k != "streams" ==> Get(r.value, k) == Get(g, k)
  {
    if !Has(g, "streams") {
      return Ok(g);
    }
    var streams := g.values["streams"];
    var looped := RestrictStreamsLoop(streams, streams.keys, allow, substitute);
    if looped.Err? {
      return Err(looped.error);
    }
    r := Ok(Set(g, "streams", looped.value));
  }

  /** The sections the script fills before the stream loop, as it leaves them. */
  ghost predicate Prepared(g0: JSON, g: JSON, internal: Option<string>, ffmpegPath: string, libavformatMajor: int,
                           substitute: string -> Option<string>)
    requires Go2rtcShape(g0)
  {
    && g.Obj?
    && At(g, "api", "origin") == Filled(g0, "api", "origin", Str("*"))
    && Get(g, "hass") == (if IsUnset(g0, "hass") then Some(HassDefault) else Get(g0, "hass"))
    && At(g, "log", "format") == Filled(g0, "log", "format", Str("text"))
    && At(g, "webrtc", "candidates") == Filled(g0, "webrtc", "candidates", Arr(DefaultCandidates(internal)))
    && CredentialDone(g0, g, "username", substitute) && CredentialDone(g0, g, "password", substitute)
    && At(g, "ffmpeg", "bin") == Filled(g0, "ffmpeg", "bin", Str(ffmpegPath))
    && (libavformatMajor < 59 ==> At(g, "ffmpeg", "rtsp") == Filled(g0, "ffmpeg", "rtsp", Str(RtspArgs)))
    && (libavformatMajor >= 59 ==> At(g, "ffmpeg", "rtsp") == At(g0, "ffmpeg", "rtsp"))
  }

  /** Everything other than the filled sections is left as read. */
  ghost predicate OthersKept(g0: JSON, g: JSON) {
    forall k :: k != "api" && k != "hass" && k != "log" && k != "webrtc" && k != "rtsp" && k != "ffmpeg" ==> Get(g, k) == Get(g0, k)
  }

  /** The general defaults and the credentials, as the script leaves them. */
  ghost predicate GeneralDone(g0: JSON, g: JSON, internal: Option<string>, substitute: string -> Option<string>)
    requires Go2rtcShape(g0)
  {
    && g.Obj?
    && At(g, "api", "origin") == Filled(g0, "api", "origin", Str("*"))
    && Get(g, "hass") == (if IsUnset(g0, "hass") then Some(HassDefault) else Get(g0, "hass"))
    && At(g, "log", "format") == Filled(g0, "log", "format", Str("text"))
    && At(g, "webrtc", "candidates") == Filled(g0, "webrtc", "candidates", Arr(DefaultCandidates(internal)))
    && CredentialDone(g0, g, "username", substitute) && CredentialDone(g0, g, "password", substitute)
  }

  /** The general defaults, then the credentials. */
  method PrepareGeneral(g0: JSON, internal: Option<string>, substitute: string -> Option<string>) returns (r: Result<JSON>)
    requires Go2rtcShape(g0)
    ensures r.Err? <==> CredentialFails(g0, "username", substitute) || CredentialFails(g0, "password", substitute)
    ensures r.Ok? ==> GeneralDone(g0, r.value, internal, substitute)
    ensures r.Ok? ==> forall k :: k != "api" && k != "hass" && k != "log" && k != "webrtc" && k != "rtsp" ==> Get(r.value, k) == Get(g0, k)
  {
    var g1 := FillDefaults(g0, internal);
    assert "rtsp"[0] != "api"[0] && "rtsp"[0] != "hass"[0] && "rtsp"[0] != "log"[0] && "rtsp"[0] != "webrtc"[0];
    assert Get(g1, "rtsp") == Get(g0, "rtsp");
    CredentialFrame(g0, g1, g0, g0, "username", substitute);
    CredentialFrame(g0, g1, g0, g0, "password", substitute);
    r := FormatCredentials(g1, substitute);
    if r.Ok? {
      var g := r.value;
      assert Get(g, "api") == Get(g1, "api") && Get(g, "log") == Get(g1, "log") && Get(g, "webrtc") == Get(g1, "webrtc");
      CredentialFrame(g1, g0, g, g, "username", substitute);
      CredentialFrame(g1, g0, g, g, "password", substitute);
      AtFrame(g, g1, "api", "origin");
      AtFrame(g, g1, "log", "format");
      AtFrame(g, g1, "webrtc", "candidates");
    }
  }

  /** The defaults and the credentials, in the script's order. */
  method Prepare(g0: JSON, internal: Option<string>, ffmpegPath: string, libavformatMajor: int,
                 substitute: string -> Option<string>) returns (r: Result<JSON>)
    requires Go2rtcShape(g0)
    ensures r.Err? <==> CredentialFails(g0, "username", substitute) || CredentialFails(g0, "password", substitute)
    ensures r.Err? ==> r.error == KeyError
    ensures r.Ok? ==> Prepared(g0, r.value, internal, ffmpegPath, libavformatMajor, substitute) && OthersKept(g0, r.value)
  {
    var general := PrepareGeneral(g0, internal, substitute);
    if general.Err? {
      return Err(KeyError);
    }
    var g1 := general.value;
    assert "ffmpeg"[0] != "api"[0] && "ffmpeg"[0] != "hass"[0] && "ffmpeg"[0] != "log"[0] && "ffmpeg"[0] != "webrtc"[0];
    assert "ffmpeg"[0] != "rtsp"[0];
    assert Get(g1, "ffmpeg") == Get(g0, "ffmpeg");
    var g := FillFfmpegDefaults(g1, ffmpegPath, libavformatMajor);
    assert Get(g, "api") == Get(g1, "api") && Get(g, "hass") == Get(g1, "hass") && Get(g, "log") == Get(g1, "log");
    assert Get(g, "webrtc") == Get(g1, "webrtc") && Get(g, "rtsp") == Get(g1, "rtsp");
    CredentialFrame(g0, g0, g1, g, "username", substitute);
    CredentialFrame(g0, g0, g1, g, "password", substitute);
    AtFrame(g, g1, "api", "origin");
    AtFrame(g, g1, "log", "format");
    AtFrame(g, g1, "webrtc", "candidates");
    FilledFrame(g1, g0, "ffmpeg", "bin", Str(ffmpegPath));
    FilledFrame(g1, g0, "ffmpeg", "rtsp", Str(RtspArgs));
    AtFrame(g1, g0, "ffmpeg", "rtsp");
    r := Ok(g);
  }

  /** The prepared sections survive a change to `streams`. */
  lemma PreparedFrame(g0: JSON, g: JSON, h: JSON, internal: Option<string>, ffmpegPath: string, libavformatMajor: int,
                      substitute: string -> Option<string>)
    requires Go2rtcShape(g0) && Prepared(g0, g, internal, ffmpegPath, libavformatMajor, substitute)
    requires h.Obj? && forall k :: k != "streams" ==> Get(h, k) == Get(g, k)
    ensures Prepared(g0, h, internal, ffmpegPath, libavformatMajor, substitute)
  {
    assert "streams"[0] != "api"[0] && "streams"[0] != "hass"[0] && "streams"[0] != "log"[0] && "streams"[0] != "webrtc"[0];
    assert "streams"[0] != "rtsp"[0] && "streams"[0] != "ffmpeg"[0];
    CredentialFrame(g0, g0, g, h, "username", substitute);
    CredentialFrame(g0, g0, g, h, "password", substitute);
    AtFrame(g, h, "api", "origin");
    AtFrame(g, h, "log", "format");
    AtFrame(g, h, "webrtc", "candidates");
    AtFrame(g, h, "ffmpeg", "bin");
    AtFrame(g, h, "ffmpeg", "rtsp");
  }

  /** The birdseye restream stream written into the section. */
  method AddBirdseye(g: JSON, cmd: string) returns (r: JSON)
    requires g.Obj? && DictOrAbsent(g, "streams")
    ensures r.Obj? && Get(r, "streams") == Some(WithBirdseye(Get(g, "streams"), cmd))
    ensures forall k :: k != "streams" ==> Get(r, k) == Get(g, k)
  {
    r := Set(g, "streams", WithBirdseye(Get(g, "streams"), cmd));
  }

  /** The go2rtc section as the script writes it, given the go2rtc section `g0` it read. */
  ghost predicate Written(g0: JSON, g: JSON, config: JSON, allow: bool, internal: Option<string>, b: Build,
                          substitute: string -> Option<string>, encode: (string, JSON, string, string) -> string)
    requires ConfigShape(config) && Go2rtcShape(g0) && LoopedStreams(g0, allow, substitute).Ok?
  {
    var ffmpegPath := FfmpegPath(PathSetting(config), b);
    var looped := LoopedStreams(g0, allow, substitute).value;
    && Prepared(g0, g, internal, ffmpegPath, b.libavformatMajor, substitute)
    && Get(g, "streams") == (if Restream(config) then Some(WithBirdseye(looped, BirdseyeCommand(config, ffmpegPath, b.birdseyePipe, encode)))
                             else looped)
    && forall k :: k != "api" && k != "hass" && k != "log" && k != "webrtc" && k != "rtsp" && k != "ffmpeg" && k != "streams" ==>
         Get(g, k) == Get(g0, k)
  }

  /**
   * The whole script: the go2rtc section of the configuration with its
   * defaults filled, its credentials and streams formatted, restricted
   * sources removed unless arbitrary exec is allowed, and the birdseye
   * restream added when enabled. `Err(KeyError)` is the exit on a failed
   * substitution, `Err(AttributeError)` the raise on a list source that is
   * not a string.
   */
  method CreateConfig(config: JSON, setting: JSON, internal: Option<string>, b: Build,
                      substitute: string -> Option<string>, encode: (string, JSON, string, string) -> string)
    returns (r: Result<JSON>)
    requires ConfigShape(config)
    ensures var g0 := GetOr(config, "go2rtc", Empty);
            r.Err? <==> CredentialFails(g0, "username", substitute) || CredentialFails(g0, "password", substitute)
                        || LoopedStreams(g0, AllowArbitraryExec(setting), substitute).Err?
    ensures var g0 := GetOr(config, "go2rtc", Empty);
            r.Err? ==> r.error == if CredentialFails(g0, "username", substitute) || CredentialFails(g0, "password", substitute)
                                  then KeyError else LoopedStreams(g0, AllowArbitraryExec(setting), substitute).error
    ensures r.Ok? ==> Written(GetOr(config, "go2rtc", Empty), r.value, config, AllowArbitraryExec(setting), internal, b, substitute, encode)
  {
    var g0 := GetOr(config, "go2rtc", Empty);
    var allow := AllowArbitraryExec(setting);
    var ffmpegPath := FfmpegPath(PathSetting(config), b);
    var prepared := Prepare(g0, internal, ffmpegPath, b.libavformatMajor, substitute);
    if prepared.Err? {
      return Err(KeyError);
    }
    var g1 := prepared.value;
    LoopedFrame(g0, g1, allow, substitute);
    var restricted := RestrictSection(g1, allow, substitute);
    if restricted.Err? {
      return Err(restricted.error);
    }
    var g := restricted.value;
    if Restream(config) {
      var cmd := BirdseyeCommand(config, ffmpegPath, b.birdseyePipe, encode);
      g := AddBirdseye(g, cmd);
    }
    PreparedFrame(g0, g1, g, internal, ffmpegPath, b.libavformatMajor, substitute);
    r := Ok(g);
  }

  /**
   * With arbitrary exec disallowed, the written streams hold no restricted
   * source other than the birdseye restream the script adds itself: every
   * other stream is a safe URL or list, or a value the loop does not format.
   */
  lemma WrittenStreamsSafe(config: JSON, g: JSON, internal: Option<string>, b: Build,
                           substitute: string -> Option<string>, encode: (string, JSON, string, string) -> string)
    requires ConfigShape(config)
    requires var g0 := GetOr(config, "go2rtc", Empty); Has(g0, "streams") ==> WellFormed(g0.values["streams"])
    requires LoopedStreams(GetOr(config, "go2rtc", Empty), false, substitute).Ok?
    requires Written(GetOr(config, "go2rtc", Empty), g, config, false, internal, b, substitute, encode)
    ensures Get(g, "streams").Some? ==>
              var streams := Get(g, "streams").value;
              forall k :: k != "birdseye" && Has(streams, k) ==>
                SafeStream(streams.values[k]) || (!streams.values[k].Str? && !streams.values[k].Arr?)
  {
    var g0 := GetOr(config, "go2rtc", Empty);
    var looped := LoopedStreams(g0, false, substitute).value;
    var cmd := BirdseyeCommand(config, FfmpegPath(PathSetting(config), b), b.birdseyePipe, encode);
    assert Get(g, "streams") == if Restream(config) then Some(WithBirdseye(looped, cmd)) else looped;
    if Has(g0, "streams") {
      NoRestrictedSourceLeft(g0.values["streams"], substitute);
    }
    if Get(g, "streams").Some? {
      var streams := Get(g, "streams").value;
      forall k | k != "birdseye" && Has(streams, k)
        ensures SafeStream(streams.values[k]) || (!streams.values[k].Str? && !streams.values[k].Arr?)
      {
        StreamEntryLooped(looped, streams, Restream(config), cmd, k);
      }
    }
  }

  /** A written stream other than the birdseye restream is the looped stream of the same name. */
  lemma StreamEntryLooped(looped: Option<JSON>, streams: JSON, restream: bool, cmd: string, k: string)
    requires looped.Some? ==> looped.value.Obj?
    requires Some(streams) == if restream then Some(WithBirdseye(looped, cmd)) else looped
    requires k != "birdseye" && Has(streams, k)
    ensures looped.Some? && Has(looped.value, k) && streams.values[k] == looped.value.values[k]
  {
  }
}
