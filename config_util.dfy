/**
 * The small configuration helpers next to the migration chain: locating the
 * config file, converting an object-filter area to pixels, and the
 * per-path cache of probed stream properties.
 */
module ConfigUtil {
  import opened Wrappers
  import opened Json
  import Text
  import Seqs

  // ------------------------------------------------------- config file

  /**
   * `find_config_file`: the `CONFIG_FILE` environment value, or `config.yml`
   * in the config directory; when no file is there, the same path with
   * "yml" replaced by "yaml". `isFile` is what the file system reports.
   */
  function FindConfigFile(env: Option<string>, configDir: string, isFile: string -> bool): (r: string)
    ensures var path := env.GetOr(configDir + "/config.yml");
            && (isFile(path) ==> r == path)
            && (!isFile(path) ==> r == Text.Replace(path, "yml", "yaml"))
  {
    var path := env.GetOr(configDir + "/config.yml");
    if isFile(path) then path else Text.Replace(path, "yml", "yaml")
  }

  /** A missing file whose path does not mention "yml" is looked for under the same path. */
  lemma MissingPathWithoutYml(env: Option<string>, configDir: string, isFile: string -> bool)
    requires !isFile(env.GetOr(configDir + "/config.yml")) && !Text.Contains(env.GetOr(configDir + "/config.yml"), "yml")
    ensures FindConfigFile(env, configDir, isFile) == env.GetOr(configDir + "/config.yml")
  {
  }

  /** A missing `x.yml` is looked for as `x.yaml` when the rest of the path does not mention "yml". */
  lemma {:induction false} YmlBecomesYaml(stem: string)
    requires !Text.Contains(stem, "yml")
    ensures Text.Replace(stem + ".yml", "yml", "yaml") == stem + ".yaml"
    decreases |stem|
  {
    if stem == [] {
      DotYml();
    } else {
      var s, rest := stem + ".yml", stem[1..] + ".yml";
      NoYmlAtStart(stem);
      Text.ReplaceFirstKept(s, "yml", "yaml");
      assert s[1..] == rest;
      if Text.Contains(stem[1..], "yml") {
        Text.ContainsTail(stem, "yml");
      }
      YmlBecomesYaml(stem[1..]);
      Seqs.ConsAppend(stem, ".yaml");
    }
  }

  /** The bare suffix: `.yml` becomes `.yaml`. */
  lemma DotYml()
    ensures Text.Replace(".yml", "yml", "yaml") == ".yaml"
  {
    assert ".yml"[..3][0] == '.' && "yml"[0] == 'y';
    assert ".yml"[1..] == "yml";
    assert Text.Replace("yml", "yml", "yaml") == "yaml" + Text.Replace([], "yml", "yaml");
  }

  /** A stem without "yml" followed by `.yml` does not start with "yml". */
  lemma NoYmlAtStart(stem: string)
    requires stem != [] && !Text.Contains(stem, "yml")
    ensures (stem + ".yml")[..3] != "yml"
  {
    var s := stem + ".yml";
    if |stem| >= 3 {
      assert s[..3] == stem[..3];
      assert Text.StartsWith(stem, "yml") ==> Text.Contains(stem, "yml");
    } else if |stem| == 2 {
      assert s[2] == '.';
    } else {
      assert s[1] == '.';
    }
  }

  // ------------------------------------------------------- area to pixels

  /** The exceptions `convert_area_to_pixels` raises. */
  const ValueError: string := "ValueError"
  const TypeError: string := "TypeError"

  /** The fractions of the frame accepted as an area. */
  predicate AreaFraction(r: real) {
    0.000001 <= r <= 0.99
  }

  /** `int(x)` on a non-negative number: the whole part. */
  function WholePart(x: real): (r: int)
    requires x >= 0.0
    ensures r >= 0 && r as real <= x < r as real + 1.0
  {
    x.Floor
  }

  /**
   * `convert_area_to_pixels`: an integer (a bool being one) is already in
   * pixels; a float in [0.000001, 0.99] is that fraction of the frame's
   * height times width, at least one pixel; another float raises
   * ValueError, any other value TypeError.
   */
  function AreaToPixels(area: JSON, height: nat, width: nat): (r: Result<int>)
    ensures area.Int? ==> r == Ok(area.i)
    ensures area.Float? && !AreaFraction(area.r) ==> r == Err(ValueError)
    ensures !area.Int? && !area.Bool? && !area.Float? ==> r == Err(TypeError)
  {
    match area
    case Int(n) => Ok(n)
    case Bool(b) => Ok(if b then 1 else 0)
    case Float(x) =>
      if AreaFraction(x) then
        var pixels := WholePart((height * width) as real * x);
        Ok(if pixels > 1 then pixels else 1)
      else Err(ValueError)
    case _ => Err(TypeError)
  }

  /**
   * A fraction of the frame converts to at least one pixel and never more
   * than the fraction of the frame it names.
   */
  lemma AreaFractionPixels(x: real, height: nat, width: nat)
    requires AreaFraction(x)
    ensures var r := AreaToPixels(Float(x), height, width);
            && r.Ok? && r.value >= 1
            && (r.value > 1 ==> r.value as real <= (height * width) as real * x)
            && (height * width) as real * x < r.value as real + 1.0
  {
  }

  /** The pixel count of a fraction is monotone in the fraction. */
  lemma AreaPixelsMonotone(x: real, y: real, height: nat, width: nat)
    requires AreaFraction(x) && AreaFraction(y) && x <= y
    ensures AreaToPixels(Float(x), height, width).value <= AreaToPixels(Float(y), height, width).value
  {
    var f := (height * width) as real;
    assert f * x <= f * y;
  }

  // ------------------------------------------------------- stream info cache

  /** `StreamInfoRetriever`: probed stream properties, by path. */
  class StreamInfoRetriever {
    var streamCache: map<string, JSON>

    constructor ()
      ensures streamCache == map[]
    {
      streamCache := map[];
    }

    /**
     * `get_stream_info`: the cached properties of a path probed before;
     * otherwise `probed`, what probing the path yields now, which is cached.
     */
    method GetStreamInfo(path: string, probed: JSON) returns (info: JSON)
      modifies this
      ensures path in old(streamCache) ==> info == old(streamCache)[path] && streamCache == old(streamCache)
      ensures path !in old(streamCache) ==> info == probed && streamCache == old(streamCache)[path := probed]
      ensures path in streamCache && streamCache[path] == info
    {
      if path in streamCache {
        return streamCache[path];
      }
      info := probed;
      streamCache := streamCache[path := info];
    }
  }
}
