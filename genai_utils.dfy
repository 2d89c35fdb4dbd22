/** OpenAI-style tool-call parsing and assistant-message building shared by the providers. */
module GenaiUtils {
  import opened Wrappers
  import opened Json

  /** The normalized `{"id", "name", "arguments"}` dict every provider returns. */
  datatype ToolCall = ToolCall(id: JSON, name: JSON, arguments: JSON)

  /**
   * The normalized `{content, tool_calls, finish_reason}` dict every
   * provider's `chat_with_tools` returns; an absent `finish_reason` key is None.
   */
  datatype Reply = Reply(content: Option<string>, toolCalls: Option<seq<ToolCall>>, finishReason: Option<string>)

  /** The reply for a failed request: no content, no tool calls, finish reason "error". */
  const ErrorReply := Reply(None, None, Some("error"))

  /** `x or default` applied to an optional lookup. */
  function OrElse(x: Option<JSON>, default: JSON): JSON {
    if x.Some? && Truthy(x.value) then x.value else default
  }

  /**
   * The decoded arguments, an empty or missing text read as `{}`, with decode errors and non-string
   * arguments (TypeError) both becoming `{}`.
   */
  function ParseArguments(raw: Option<JSON>, c: Codec): JSON {
    var text := OrElse(raw, Str("{}"));
    if !text.Str? then Empty
    else match c.loads(text.s)
      case Some(v) => v
      case None => Empty
  }

  /**
   * One raw entry. An entry that is not a dict, or whose "function" is a
   * truthy non-dict, makes `.get` raise outside the guarded block.
   */
  function ParseEntry(entry: JSON, c: Codec): Result<ToolCall> {
    if !entry.Obj? then Err("AttributeError: tool call is not a dict")
    else
      var fn := OrElse(Get(entry, "function"), Empty);
      if !fn.Obj? then Err("AttributeError: function is not a dict")
      else Ok(ToolCall(GetOr(entry, "id", Str("")), GetOr(fn, "name", Str("")),
                       ParseArguments(Get(fn, "arguments"), c)))
  }

  /** Entries parsed in order; the first failing entry's error propagates. */
  function ParseEntries(raw: seq<JSON>, c: Codec): Result<seq<ToolCall>> {
    if raw == [] then Ok([])
    else match ParseEntry(raw[0], c)
      case Err(e) => Err(e)
      case Ok(tc) =>
        match ParseEntries(raw[1..], c)
        case Err(e) => Err(e)
        case Ok(rest) => Ok([tc] + rest)
  }

  /** Specification of `parse_tool_calls_from_message`. */
  function ParseToolCallsSpec(message: JSON, c: Codec): Result<Option<seq<ToolCall>>>
    requires message.Obj?
  {
    var raw := Get(message, "tool_calls");
    if !(raw.Some? && Truthy(raw.value)) || !raw.value.Arr? then Ok(None)
    else match ParseEntries(raw.value.items, c)
      case Err(e) => Err(e)
      case Ok(calls) => Ok(if calls == [] then None else Some(calls))
  }

  function Prepend(done: seq<ToolCall>, r: Result<seq<ToolCall>>): Result<seq<ToolCall>> {
    match r
    case Err(e) => Err(e)
    case Ok(rest) => Ok(done + rest)
  }

  /** `parse_tool_calls_from_message`: the result list is filled entry by entry. */
  method ParseToolCalls(message: JSON, c: Codec) returns (r: Result<Option<seq<ToolCall>>>)
    requires message.Obj?
    ensures r == ParseToolCallsSpec(message, c)
  {
    var raw := Get(message, "tool_calls");
    if !(raw.Some? && Truthy(raw.value)) || !raw.value.Arr? {
      return Ok(None);
    }
    var items := raw.value.items;
    var result: seq<ToolCall> := [];
    var i := 0;
    assert items[0..] == items;
    match ParseEntries(items, c) {
      case Err(_) =>
      case Ok(rest) => assert [] + rest == rest;
    }
    while i < |items|
      invariant 0 <= i <= |items|
      invariant ParseEntries(items, c) == Prepend(result, ParseEntries(items[i..], c))
    {
      var entry := ParseEntry(items[i], c);
      assert items[i..][0] == items[i] && items[i..][1..] == items[i + 1..];
      if entry.Err? {
        return Err(entry.error);
      }
      match ParseEntries(items[i + 1..], c) {
        case Err(_) =>
        case Ok(rest) => assert result + ([entry.value] + rest) == (result + [entry.value]) + rest;
      }
      result := result + [entry.value];
      i := i + 1;
    }
    assert result + [] == result;
    r := Ok(if result == [] then None else Some(result));
  }

  /** `arguments or {}`. */
  function OrEmpty(arguments: JSON): JSON {
    if Truthy(arguments) then arguments else Empty
  }

  /** The `{id, type, function: {name, arguments}}` wire form of one call. */
  function WireCall(tc: ToolCall, c: Codec): JSON {
    var fn := Set(Set(Empty, "name", tc.name),
                  "arguments", Str(c.dumps(OrEmpty(tc.arguments))));
    Set(Set(Set(Empty, "id", tc.id), "type", Str("function")), "function", fn)
  }

  /**
   * Each emitted call has type "function", the call's id and name, and its
   * arguments JSON-encoded with a falsy value sent as `{}`.
   */
  lemma WireCallShape(tc: ToolCall, c: Codec)
    ensures Get(WireCall(tc, c), "id") == Some(tc.id)
    ensures Get(WireCall(tc, c), "type") == Some(Str("function"))
    ensures Path(WireCall(tc, c), ["function", "name"]) == Some(tc.name)
    ensures Path(WireCall(tc, c), ["function", "arguments"]) == Some(Str(c.dumps(OrEmpty(tc.arguments))))
    ensures !Truthy(tc.arguments) ==> Path(WireCall(tc, c), ["function", "arguments"]) == Some(Str(c.dumps(Empty)))
  {
  }

  /** The wire forms of the calls, in order. */
  function WireCalls(calls: seq<ToolCall>, c: Codec): (r: seq<JSON>)
    ensures |r| == |calls|
    ensures forall i :: 0 <= i < |calls| ==> r[i] == WireCall(calls[i], c)
  {
    if calls == [] then [] else [WireCall(calls[0], c)] + WireCalls(calls[1..], c)
  }

  /** `build_assistant_message_for_conversation`. */
  function BuildAssistantMessage(content: JSON, calls: Option<seq<ToolCall>>, c: Codec): (m: JSON)
    ensures m.Obj?
    ensures Get(m, "role") == Some(Str("assistant")) && Get(m, "content") == Some(content)
    ensures Has(m, "tool_calls") <==> calls.Some? && calls.value != []
    ensures calls.Some? && calls.value != [] ==> Get(m, "tool_calls") == Some(Arr(WireCalls(calls.value, c)))
  {
    var base := Set(Set(Empty, "role", Str("assistant")), "content", content);
    if calls.Some? && calls.value != [] then Set(base, "tool_calls", Arr(WireCalls(calls.value, c)))
    else base
  }

  /** What parsing gives back for a built call: falsy arguments come back as `{}`. */
  function Normalized(calls: seq<ToolCall>): (r: seq<ToolCall>)
    ensures |r| == |calls|
    ensures forall i :: 0 <= i < |calls| ==> r[i].id == calls[i].id && r[i].name == calls[i].name
    ensures forall i :: 0 <= i < |calls| ==> r[i].arguments == OrEmpty(calls[i].arguments)
  {
    if calls == [] then []
    else [ToolCall(calls[0].id, calls[0].name, OrEmpty(calls[0].arguments))] + Normalized(calls[1..])
  }

  lemma ParseWireCall(tc: ToolCall, c: Codec)
    requires InvertsAt(c, OrEmpty(tc.arguments))
    ensures ParseEntry(WireCall(tc, c), c) == Ok(ToolCall(tc.id, tc.name, OrEmpty(tc.arguments)))
  {
  }

  lemma {:induction false} ParseWireCalls(calls: seq<ToolCall>, c: Codec)
    requires forall i :: 0 <= i < |calls| ==> InvertsAt(c, OrEmpty(calls[i].arguments))
    ensures ParseEntries(WireCalls(calls, c), c) == Ok(Normalized(calls))
  {
    if calls != [] {
      ParseWireCall(calls[0], c);
      ParseWireCalls(calls[1..], c);
      var wire := WireCalls(calls, c);
      assert wire[0] == WireCall(calls[0], c) && wire[1..] == WireCalls(calls[1..], c);
      assert Normalized(calls) == [ToolCall(calls[0].id, calls[0].name, OrEmpty(calls[0].arguments))] + Normalized(calls[1..]);
    }
  }

  /**
   * Building an assistant message and parsing its tool calls again gives back
   * the ids, names and arguments that went in, falsy arguments as `{}`,
   * whenever `json.loads` reads back what `json.dumps` wrote for each call's
   * arguments.
   */
  lemma {:induction false} BuildThenParse(content: JSON, calls: seq<ToolCall>, c: Codec)
    requires calls != []
    requires forall i :: 0 <= i < |calls| ==> InvertsAt(c, OrEmpty(calls[i].arguments))
    ensures ParseToolCallsSpec(BuildAssistantMessage(content, Some(calls), c), c) == Ok(Some(Normalized(calls)))
    ensures (forall i :: 0 <= i < |calls| ==> Truthy(calls[i].arguments)) ==>
            ParseToolCallsSpec(BuildAssistantMessage(content, Some(calls), c), c) == Ok(Some(calls))
  {
    ParseWireCalls(calls, c);
    ParseBuilt(content, calls, c);
    if forall i :: 0 <= i < |calls| ==> Truthy(calls[i].arguments) {
      NormalizedTruthy(calls);
    }
  }

  lemma ParseBuilt(content: JSON, calls: seq<ToolCall>, c: Codec)
    requires calls != [] && ParseEntries(WireCalls(calls, c), c) == Ok(Normalized(calls))
    ensures ParseToolCallsSpec(BuildAssistantMessage(content, Some(calls), c), c) == Ok(Some(Normalized(calls)))
  {
  }

  lemma NormalizedTruthy(calls: seq<ToolCall>)
    requires forall i :: 0 <= i < |calls| ==> Truthy(calls[i].arguments)
    ensures Normalized(calls) == calls
  {
  }

  /** Missing, non-list and empty `tool_calls` all give None. */
  lemma ParseNoCalls(message: JSON, c: Codec)
    requires message.Obj?
    ensures (Get(message, "tool_calls").None? || !Get(message, "tool_calls").value.Arr?
             || Get(message, "tool_calls").value.items == []) ==> ParseToolCallsSpec(message, c) == Ok(None)
    ensures ParseToolCallsSpec(message, c) == Ok(None) ==>
      Get(message, "tool_calls").None? || !Get(message, "tool_calls").value.Arr?
      || Get(message, "tool_calls").value.items == []
  {
    var raw := Get(message, "tool_calls");
    if raw.Some? && raw.value.Arr? && raw.value.items != [] {
      ParseEntriesShape(raw.value.items, c);
    }
  }

  /** One parsed call per entry, in entry order, each the parse of its own entry. */
  lemma {:induction false} ParseEntriesShape(raw: seq<JSON>, c: Codec)
    ensures ParseEntries(raw, c).Ok? ==>
      |ParseEntries(raw, c).value| == |raw|
      && forall i :: 0 <= i < |raw| ==> ParseEntry(raw[i], c) == Ok(ParseEntries(raw, c).value[i])
    ensures ParseEntries(raw, c).Err? <==> exists i :: 0 <= i < |raw| && ParseEntry(raw[i], c).Err?
  {
    if raw != [] {
      ParseEntriesShape(raw[1..], c);
      if ParseEntry(raw[0], c).Ok? && ParseEntries(raw[1..], c).Ok? {
        var rest := ParseEntries(raw[1..], c).value;
        forall i | 0 <= i < |raw| ensures ParseEntry(raw[i], c) == Ok(ParseEntries(raw, c).value[i]) {
          if i > 0 { assert raw[i] == raw[1..][i - 1]; }
        }
      }
      if ParseEntries(raw[1..], c).Err? {
        var j :| 0 <= j < |raw[1..]| && ParseEntry(raw[1..][j], c).Err?;
        assert ParseEntry(raw[j + 1], c).Err?;
      }
      if exists i :: 0 <= i < |raw| && ParseEntry(raw[i], c).Err? {
        var i :| 0 <= i < |raw| && ParseEntry(raw[i], c).Err?;
        if i > 0 { assert raw[1..][i - 1] == raw[i]; }
      }
    }
  }

  /**
   * Per-entry defaults: a missing id or name becomes "", missing or empty
   * arguments parse as `{}`, and undecodable arguments become `{}`.
   */
  lemma EntryDefaults(entry: JSON, c: Codec)
    requires LoadsEmptyDict(c) && entry.Obj?
    requires Get(entry, "function").Some? ==> Get(entry, "function").value.Obj?
    ensures ParseEntry(entry, c).Ok?
    ensures !Has(entry, "id") ==> ParseEntry(entry, c).value.id == Str("")
    ensures var fn := OrElse(Get(entry, "function"), Empty);
            && (!Has(fn, "name") ==> ParseEntry(entry, c).value.name == Str(""))
            && (!(Get(fn, "arguments").Some? && Truthy(Get(fn, "arguments").value)) ==> ParseEntry(entry, c).value.arguments == Empty)
            && ((Get(fn, "arguments").Some? && Get(fn, "arguments").value.Str? && Truthy(Get(fn, "arguments").value)
                 && c.loads(Get(fn, "arguments").value.s).None?) ==> ParseEntry(entry, c).value.arguments == Empty)
  {
  }
}
