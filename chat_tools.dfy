/**
 * The tools the chat endpoint offers the model (`search_objects`,
 * `get_live_context`), the `/chat/execute` endpoint and the live-frame
 * lookup. The events query, the camera states and the frame encoder are
 * parameters: the model sees only what they return.
 */
module ChatTools {
  import opened Wrappers
  import opened Json
  import opened Text
  import opened Seqs

  /** `str(v)`: a string is itself, anything else goes through `repr`. */
  function Display(v: JSON, repr: JSON -> string): string {
    if v.Str? then v.s else repr(v)
  }

  // ---------------------------------------------------------------------
  // search_objects

  /** A time bound as handed to the events query: the caller's falsy value, or a parsed timestamp. */
  datatype TimeArg = Raw(value: JSON) | Stamp(t: real)

  /**
   * `after` / `before`: a missing or null value stays None, any other falsy
   * value is passed on unchanged, a string is parsed as ISO 8601 with "Z"
   * read as "+00:00", and a string that does not parse or a truthy
   * non-string (no `.replace`) becomes None.
   */
  function TimeBound(raw: Option<JSON>, parseIso: string -> Option<real>): (r: Option<TimeArg>)
    ensures raw.None? || raw == Some(Null) ==> r.None?
    ensures raw.Some? && !Truthy(raw.value) && raw.value != Null ==> r == Some(Raw(raw.value))
    ensures r.Some? && r.value.Stamp? ==>
      raw.Some? && raw.value.Str? && parseIso(Replace(raw.value.s, "Z", "+00:00")) == Some(r.value.t)
  {
    match raw
    case None => None
    case Some(v) =>
      if !Truthy(v) then (if v == Null then None else Some(Raw(v)))
      else if !v.Str? then None
      else match parseIso(Replace(v.s, "Z", "+00:00"))
        case None => None
        case Some(t) => Some(Stamp(t))
  }

  /** The strings of a list, or None when one item is not a string. */
  function StringItems(items: seq<JSON>): (r: Option<seq<string>>)
    ensures r.Some? <==> forall i :: 0 <= i < |items| ==> items[i].Str?
    ensures r.Some? ==> |r.value| == |items| && forall i :: 0 <= i < |items| ==> r.value[i] == items[i].s
  {
    if items == [] then Some([])
    else match StringItems(items[..|items| - 1])
      case None => None
      case Some(front) =>
        var last := items[|items| - 1];
        if last.Str? then Some(front + [last.s]) else None
  }

  const ZonesTypeError := "sequence item: expected str instance"

  /**
   * `zones`: a list is comma-joined (a non-string item makes `",".join`
   * raise), a missing or null value becomes "all", and anything else is
   * passed on unchanged.
   */
  function ZonesArg(raw: Option<JSON>): (r: Result<JSON>)
    ensures raw.None? || raw == Some(Null) ==> r == Ok(Str("all"))
    ensures raw.Some? && raw.value.Arr? ==>
      match StringItems(raw.value.items)
      case None => r.Err?
      case Some(zones) => r == Ok(Str(Join(zones, ",")))
    ensures raw.Some? && !raw.value.Arr? && raw.value != Null ==> r == Ok(raw.value)
  {
    match raw
    case None => Ok(Str("all"))
    case Some(v) =>
      if v == Null then Ok(Str("all"))
      else if v.Arr? then
        match StringItems(v.items)
        case None => Err(ZonesTypeError)
        case Some(zones) => Ok(Str(Join(zones, ",")))
      else Ok(v)
  }

  /** The `EventsQueryParams` built from the tool arguments (`camera`/`cameras`, `label`/`labels` and `zones`/`zone` carry one value each). */
  datatype SearchQuery = SearchQuery(camera: JSON, objectLabel: JSON, zones: JSON, after: Option<TimeArg>,
                                     before: Option<TimeArg>, limit: JSON)

  /** The query of `_execute_search_objects`, or the exception it raises. */
  function SearchQueryOf(arguments: JSON, parseIso: string -> Option<real>): Result<SearchQuery>
  {
    match ZonesArg(Get(arguments, "zones"))
    case Err(e) => Err(e)
    case Ok(zones) =>
      Ok(SearchQuery(GetOr(arguments, "camera", Str("all")), GetOr(arguments, "label", Str("all")), zones,
                     TimeBound(Get(arguments, "after"), parseIso), TimeBound(Get(arguments, "before"), parseIso),
                     GetOr(arguments, "limit", Int(10))))
  }

  /** Missing camera and label mean "all", a missing limit is 10, and each argument reaches its field. */
  lemma SearchQueryDefaults(arguments: JSON, parseIso: string -> Option<real>)
    requires arguments.Obj?
    ensures var r := SearchQueryOf(arguments, parseIso);
      && (r.Ok? <==> ZonesArg(Get(arguments, "zones")).Ok?)
      && (r.Ok? ==>
            && r.value.zones == ZonesArg(Get(arguments, "zones")).value
            && (!Has(arguments, "camera") ==> r.value.camera == Str("all"))
            && (Has(arguments, "camera") ==> r.value.camera == arguments.values["camera"])
            && (!Has(arguments, "label") ==> r.value.objectLabel == Str("all"))
            && (Has(arguments, "label") ==> r.value.objectLabel == arguments.values["label"])
            && (!Has(arguments, "limit") ==> r.value.limit == Int(10))
            && (Has(arguments, "limit") ==> r.value.limit == arguments.values["limit"])
            && (!Has(arguments, "zones") ==> r.value.zones == Str("all"))
            && (!Has(arguments, "after") ==> r.value.after.None?)
            && (Has(arguments, "after") ==> r.value.after == TimeBound(Some(arguments.values["after"]), parseIso))
            && (!Has(arguments, "before") ==> r.value.before.None?)
            && (Has(arguments, "before") ==> r.value.before == TimeBound(Some(arguments.values["before"]), parseIso)))
  {
  }

  /** An HTTP response: its status code and its JSON content. */
  datatype HttpResponse = HttpResponse(status: int, content: JSON)

  /**
   * The events endpoint as seen from the tool: the response it returns, or
   * the message of the exception it raises.
   */
  type EventsQuery = (SearchQuery, seq<string>) -> Result<HttpResponse>

  function SearchErrorContent(message: string): JSON {
    Set(Set(Empty, "success", Bool(false)), "message", Str("Error searching objects: " + message))
  }

  /**
   * `_execute_search_objects`: the events response as is, a 500 response with
   * `success: false` when the events query raises, or the exception raised
   * while building the query.
   */
  function SearchObjects(arguments: JSON, allowed: seq<string>, parseIso: string -> Option<real>, events: EventsQuery)
    : (r: Result<HttpResponse>)
    ensures SearchQueryOf(arguments, parseIso).Err? ==> r.Err?
    ensures SearchQueryOf(arguments, parseIso).Ok? ==>
      && r.Ok?
      && var q := SearchQueryOf(arguments, parseIso).value;
         match events(q, allowed)
         case Ok(resp) => r.value == resp
         case Err(e) => r.value.status == 500 && Get(r.value.content, "success") == Some(Bool(false))
                        && Get(r.value.content, "message") == Some(Str("Error searching objects: " + e))
  {
    match SearchQueryOf(arguments, parseIso)
    case Err(e) => Err(e)
    case Ok(q) =>
      match events(q, allowed)
      case Ok(resp) => Ok(resp)
      case Err(e) => Ok(HttpResponse(500, SearchErrorContent(e)))
  }

  // ---------------------------------------------------------------------
  // get_live_context

  /** A camera's state: `to_dict()` of each tracked object, in dict order, and `current_frame_time`. */
  datatype CameraState = CameraState(tracked: seq<JSON>, frameTime: JSON)

  /** The part of a camera's configuration the chat endpoint reads. */
  datatype CameraConfig = CameraConfig(friendlyName: Option<string>)

  /** What the tools read of the running system: the configured cameras and the per-camera states. */
  datatype LiveEnv = LiveEnv(cameras: map<string, CameraConfig>, states: map<string, CameraState>)

  /** The object's "frame_time" is the current frame time: it was seen in the current frame. */
  predicate IsCurrent(frameTime: JSON, obj: JSON) {
    GetOr(obj, "frame_time", Null) == frameTime
  }

  function CurrentIn(frameTime: JSON): JSON -> bool {
    o => IsCurrent(frameTime, o)
  }

  /** The reduced view of a tracked object given to the model. */
  function Summary(obj: JSON): JSON {
    Obj(["label", "zones", "sub_label", "stationary"],
        map["label" := GetOr(obj, "label", Null), "zones" := GetOr(obj, "current_zones", Arr([])),
            "sub_label" := GetOr(obj, "sub_label", Null), "stationary" := GetOr(obj, "stationary", Bool(false))])
  }

  /** The detections of a snapshot: the summaries of the current-frame objects, in order. */
  function Detections(tracked: seq<JSON>, frameTime: JSON): seq<JSON> {
    Map(Summary, Filter(CurrentIn(frameTime), tracked))
  }

  /** A detection is reported exactly when some tracked object of the current frame has that summary. */
  lemma DetectionsAreCurrent(tracked: seq<JSON>, frameTime: JSON, d: JSON)
    ensures d in Detections(tracked, frameTime) <==> exists o :: o in tracked && IsCurrent(frameTime, o) && d == Summary(o)
  {
    MapFilterMember(Summary, CurrentIn(frameTime), tracked, d);
  }

  /** The loop of `_execute_get_live_context` over the tracked objects. */
  method CollectDetections(tracked: seq<JSON>, frameTime: JSON) returns (detections: seq<JSON>)
    ensures detections == Detections(tracked, frameTime)
  {
    detections := [];
    var k := 0;
    while k < |tracked|
      invariant 0 <= k <= |tracked|
      invariant detections == Detections(tracked[..k], frameTime)
    {
      var obj := tracked[k];
      MapFilterPrefix(Summary, CurrentIn(frameTime), tracked, k);
      var current := IsCurrent(frameTime, obj);
      assert current == CurrentIn(frameTime)(obj);
      if current {
        detections := detections + [Summary(obj)];
      }
      k := k + 1;
    }
    assert tracked[..k] == tracked;
  }

  function ErrorDict(message: string): JSON {
    Set(Empty, "error", Str(message))
  }

  /**
   * `_execute_get_live_context`: access is checked against the caller's
   * cameras first, then the configured cameras, then the camera state.
   */
  function LiveContext(camera: JSON, allowed: seq<string>, env: LiveEnv, repr: JSON -> string): JSON {
    if !(camera.Str? && camera.s in allowed) then
      ErrorDict("Camera '" + Display(camera, repr) + "' not found or access denied")
    else if camera.s !in env.cameras then ErrorDict("Camera '" + camera.s + "' not found")
    else if camera.s !in env.states then ErrorDict("Camera '" + camera.s + "' state not available")
    else
      var state := env.states[camera.s];
      Set(Set(Set(Empty, "camera", camera), "timestamp", state.frameTime),
          "detections", Arr(Detections(state.tracked, state.frameTime)))
  }

  /** A camera outside the caller's list gets the access error whatever the system's state. */
  lemma LiveContextChecksAccessFirst(camera: JSON, allowed: seq<string>, env1: LiveEnv, env2: LiveEnv, repr: JSON -> string)
    requires !(camera.Str? && camera.s in allowed)
    ensures LiveContext(camera, allowed, env1, repr) == LiveContext(camera, allowed, env2, repr)
    ensures Has(LiveContext(camera, allowed, env1, repr), "error")
    ensures !Has(LiveContext(camera, allowed, env1, repr), "detections")
  {
  }

  /** An allowed, configured camera with a state reports its frame time and only its current-frame detections. */
  lemma LiveContextReportsCurrentFrame(camera: string, allowed: seq<string>, env: LiveEnv, repr: JSON -> string)
    requires camera in allowed && camera in env.cameras && camera in env.states
    ensures var r := LiveContext(Str(camera), allowed, env, repr);
      && !Has(r, "error")
      && Get(r, "camera") == Some(Str(camera))
      && Get(r, "timestamp") == Some(env.states[camera].frameTime)
      && Get(r, "detections") == Some(Arr(Detections(env.states[camera].tracked, env.states[camera].frameTime)))
  {
  }

  // ---------------------------------------------------------------------
  // dispatch

  /** What a tool call produces: a returned value, or the message of the exception it raises. */
  datatype ToolOutcome = Returned(value: JSON) | Raised(message: string)

  const ArgumentsAttributeError := "object has no attribute 'get'"
  const ParseFailureMessage := "Failed to parse tool result"

  /**
   * `_execute_tool_internal`: `search_objects` reads back the JSON body of
   * its response (`render` encodes a response's content, `c.loads` parses
   * it); `get_live_context` needs a truthy `camera`; any other name is an
   * error result. Arguments that are not a dict make `.get` raise.
   */
  function ExecuteToolInternal(name: JSON, arguments: JSON, allowed: seq<string>, env: LiveEnv,
                               parseIso: string -> Option<real>, events: EventsQuery,
                               c: Codec, render: JSON -> string, repr: JSON -> string): ToolOutcome
  {
    if name == Str("search_objects") then
      if !arguments.Obj? then Raised(ArgumentsAttributeError)
      else match SearchObjects(arguments, allowed, parseIso, events)
        case Err(e) => Raised(e)
        case Ok(resp) =>
          match c.loads(render(resp.content))
          case Some(j) => Returned(j)
          case None => Returned(ErrorDict(ParseFailureMessage))
    else if name == Str("get_live_context") then
      if !arguments.Obj? then Raised(ArgumentsAttributeError)
      else
        var camera := GetOr(arguments, "camera", Null);
        if !Truthy(camera) then Returned(ErrorDict("Camera parameter is required"))
        else Returned(LiveContext(camera, allowed, env, repr))
    else Returned(ErrorDict("Unknown tool: " + Display(name, repr)))
  }

  /** An unknown tool name gives an error result, never an exception. */
  lemma UnknownToolIsErrorResult(name: JSON, arguments: JSON, allowed: seq<string>, env: LiveEnv,
                                 parseIso: string -> Option<real>, events: EventsQuery,
                                 c: Codec, render: JSON -> string, repr: JSON -> string)
    requires name != Str("search_objects") && name != Str("get_live_context")
    ensures var o := ExecuteToolInternal(name, arguments, allowed, env, parseIso, events, c, render, repr);
      o.Returned? && Get(o.value, "error") == Some(Str("Unknown tool: " + Display(name, repr)))
  {
  }

  /**
   * When the response encoding round-trips, `search_objects` returns the
   * events response's content itself (or the error content when the query
   * raised).
   */
  lemma SearchResultReadBack(arguments: JSON, allowed: seq<string>, env: LiveEnv,
                             parseIso: string -> Option<real>, events: EventsQuery,
                             c: Codec, render: JSON -> string, repr: JSON -> string)
    requires arguments.Obj?
    requires SearchObjects(arguments, allowed, parseIso, events).Ok?
    requires InvertsAt(Codec(render, c.loads), SearchObjects(arguments, allowed, parseIso, events).value.content)
    ensures ExecuteToolInternal(Str("search_objects"), arguments, allowed, env, parseIso, events, c, render, repr)
            == Returned(SearchObjects(arguments, allowed, parseIso, events).value.content)
  {
  }

  /**
   * `POST /chat/execute`: only `search_objects` is executed; any other name
   * answers 400 with `success: false`, the message and the tool name.
   */
  function ExecuteTool(toolName: string, arguments: JSON, allowed: seq<string>,
                       parseIso: string -> Option<real>, events: EventsQuery): (r: Result<HttpResponse>)
    ensures toolName != "search_objects" ==>
      && r.Ok? && r.value.status == 400
      && Get(r.value.content, "success") == Some(Bool(false))
      && Get(r.value.content, "message") == Some(Str("Unknown tool: " + toolName))
      && Get(r.value.content, "tool") == Some(Str(toolName))
    ensures toolName == "search_objects" ==> r == SearchObjects(arguments, allowed, parseIso, events)
  {
    if toolName == "search_objects" then SearchObjects(arguments, allowed, parseIso, events)
    else Ok(HttpResponse(400, Set(Set(Set(Empty, "success", Bool(false)), "message", Str("Unknown tool: " + toolName)),
                                  "tool", Str(toolName))))
  }

  // ---------------------------------------------------------------------
  // live frame

  const DataUrlPrefix := "data:image/jpeg;base64,"

  /**
   * `_get_live_frame_image_url`: None unless the camera is allowed,
   * configured and has a state; `grab` stands for reading, resizing and
   * base64-encoding the current frame (None when there is no frame or it
   * fails).
   */
  function LiveFrameUrl(camera: string, allowed: seq<string>, env: LiveEnv, grab: string -> Option<string>)
    : (r: Option<string>)
    ensures r.Some? <==> camera in allowed && camera in env.cameras && camera in env.states && grab(camera).Some?
    ensures r.Some? ==> r.value == DataUrlPrefix + grab(camera).value
  {
    if camera !in allowed || camera !in env.cameras then None
    else if camera !in env.states then None
    else match grab(camera)
      case None => None
      case Some(b64) => Some(DataUrlPrefix + b64)
  }
}
