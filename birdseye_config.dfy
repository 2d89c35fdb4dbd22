/** The Birdseye composite view: its mode enumeration with index lookups, and its bounded settings. */
module BirdseyeConfig {
  import opened Wrappers

  /** `BirdseyeModeEnum`, a string enumeration. */
  datatype Mode = Objects | Motion | Continuous {
    /** The string each member equals. */
    function Value(): string {
      match this
      case Objects => "objects"
      case Motion => "motion"
      case Continuous => "continuous"
    }
  }

  /** `list(BirdseyeModeEnum)`: the members in declaration order. */
  const Modes: seq<Mode> := [Objects, Motion, Continuous]

  /** The position of the first member of `modes` equal to `value`, if any. */
  function FirstIndex(modes: seq<Mode>, value: string): (r: Option<nat>)
    ensures r.Some? ==> r.value < |modes| && modes[r.value].Value() == value
    ensures r.Some? ==> forall j :: 0 <= j < r.value ==> modes[j].Value() != value
    ensures r.None? ==> forall j :: 0 <= j < |modes| ==> modes[j].Value() != value
  {
    if modes == [] then None
    else if modes[0].Value() == value then Some(0)
    else match FirstIndex(modes[1..], value)
      case None => None
      case Some(i) => Some(i + 1)
  }

  /**
   * `get_index`: `list(cls).index(value)`. A string enumeration member
   * equals its value, so the lookup is by value; any other value is the
   * `ValueError` of `list.index`.
   */
  function GetIndex(value: string): (r: Result<nat>)
    ensures r.Ok? <==> exists m: Mode :: m.Value() == value
    ensures r.Ok? ==> r.value < |Modes| && Modes[r.value].Value() == value
  {
    match FirstIndex(Modes, value)
    case None =>
      assert forall m: Mode :: m.Value() != value by {
        forall m: Mode ensures m.Value() != value {
          assert m == Modes[if m == Objects then 0 else if m == Motion then 1 else 2];
        }
      }
      Err(value + " is not in list")
    case Some(i) => Ok(i)
  }

  /**
   * `get`: `list(cls)[index]` with Python indexing, so -3 to -1 count from
   * the end; any other index is the `IndexError` of a list lookup.
   */
  function Get(index: int): (r: Result<Mode>)
    ensures r.Ok? <==> -|Modes| <= index < |Modes|
    ensures 0 <= index < |Modes| ==> r == Ok(Modes[index])
    ensures -|Modes| <= index < 0 ==> r == Ok(Modes[index + |Modes|])
  {
    if 0 <= index < |Modes| then Ok(Modes[index])
    else if -|Modes| <= index < 0 then Ok(Modes[index + |Modes|])
    else Err("list index out of range")
  }

  /** The declaration order: objects, motion, continuous have indices 0, 1, 2, and the member values are distinct. */
  lemma ModeOrder()
    ensures GetIndex("objects") == Ok(0) && GetIndex("motion") == Ok(1) && GetIndex("continuous") == Ok(2)
    ensures forall m: Mode, n: Mode :: m.Value() == n.Value() ==> m == n
  {
    assert "objects"[0] != "motion"[0] && "objects"[0] != "continuous"[0] && "motion"[0] != "continuous"[0];
  }

  /** `get(get_index(m)) == m` for every member, and `get_index(get(i)) == i` for every index from -3 to 2, negative ones wrapped. */
  lemma IndexRoundTrips(m: Mode, index: int)
    ensures GetIndex(m.Value()).Ok? && Get(GetIndex(m.Value()).value) == Ok(m)
    ensures 0 <= index < |Modes| ==> GetIndex(Get(index).value.Value()) == Ok(index)
    ensures -|Modes| <= index < 0 ==> GetIndex(Get(index).value.Value()) == Ok(index + |Modes|)
  {
    ModeOrder();
  }

  /** `BirdseyeLayoutConfig` and the bounded part of `BirdseyeConfig`. */
  datatype BirdseyeSettings = BirdseyeSettings(
    enabled: bool,
    mode: Mode,
    restream: bool,
    width: int,
    height: int,
    quality: int,
    inactivityThreshold: int,
    scalingFactor: real,
    maxCameras: Option<int>,
    idleHeartbeatFps: real)

  /** Enabled in "objects" mode, 1280x720, quality 8, 30 s inactivity, scaling 2.0, no camera limit, no heartbeat. */
  const Default: BirdseyeSettings := BirdseyeSettings(true, Objects, false, 1280, 720, 8, 30, 2.0, None, 0.0)

  /** quality in [1, 31], inactivity_threshold > 0, scaling_factor in [1.0, 5.0], idle_heartbeat_fps in [0.0, 10.0]. */
  predicate InBounds(b: BirdseyeSettings) {
    && 1 <= b.quality <= 31
    && b.inactivityThreshold > 0
    && 1.0 <= b.scalingFactor <= 5.0
    && 0.0 <= b.idleHeartbeatFps <= 10.0
  }

  /** The defaults lie inside the bounds. */
  lemma DefaultInBounds()
    ensures InBounds(Default)
    ensures Default.quality == 8 && Default.inactivityThreshold == 30 && Default.mode == Objects
  {
  }
}
