/**
 * The llama.cpp adapter: options, the request payload, the reading of one
 * OpenAI-style choice, and the server-sent-event stream folded into content
 * deltas and one final message. The HTTP exchange is a parameter: the
 * payload goes in, the decoded body (or the raised exception) comes out.
 */
module LlamaCpp {
  import opened Wrappers
  import opened Json
  import opened Text
  import opened Seqs
  import opened GenaiUtils
  import opened ProviderCommon

  /** `LOCAL_OPTIMIZED_OPTIONS`. */
  const LocalOptimizedOptions: JSON :=
    Set(Set(Set(Empty, "temperature", Float(0.7)), "repeat_penalty", Float(1.05)), "top_p", Float(0.8))

  const DefaultContextSize := 4096

  /** The base URL without trailing slashes; None when no base URL is set or it is empty. */
  function BaseUrl(baseUrl: Option<string>): (r: Option<string>)
    ensures r.Some? <==> baseUrl.Some? && baseUrl.value != ""
    ensures r.Some? ==> && |r.value| <= |baseUrl.value| && r.value == baseUrl.value[..|r.value|]
                        && (r.value != "" ==> r.value[|r.value| - 1] != '/')
                        && forall i :: |r.value| <= i < |baseUrl.value| ==> baseUrl.value[i] == '/'
  {
    if baseUrl.Some? && baseUrl.value != "" then Some(RStrip(baseUrl.value, '/')) else None
  }

  /** `LlamaCppClient`: the server URL (None when unconfigured) and the merged options. */
  class LlamaCppClient {
    const config: GenAIConfig
    var provider: Option<string>
    var providerOptions: JSON

    /** Construction runs `_init_provider` and keeps its result as the provider. */
    constructor (config: GenAIConfig)
      requires config.providerOptions.Obj?
      ensures this.config == config
      ensures providerOptions == Update(LocalOptimizedOptions, config.providerOptions)
      ensures provider == BaseUrl(config.baseUrl)
    {
      this.config := config;
      provider := None;
      providerOptions := Empty;
      new;
      provider := InitProvider();
    }

    /** `_init_provider`: the configured options over the local defaults, and the trimmed base URL. */
    method InitProvider() returns (url: Option<string>)
      requires config.providerOptions.Obj?
      modifies this
      ensures providerOptions == Update(LocalOptimizedOptions, config.providerOptions)
      ensures url == BaseUrl(config.baseUrl)
      ensures provider == old(provider)
    {
      providerOptions := Update(LocalOptimizedOptions, config.providerOptions);
      url := BaseUrl(config.baseUrl);
    }

    /** `get_context_size`: `int(provider_options.get("context_size", 4096))`. */
    function ContextSize(): (r: Result<int>)
      reads this
      ensures !Has(providerOptions, "context_size") ==> r == Ok(DefaultContextSize)
      ensures Get(providerOptions, "context_size").Some? ==> r == IntOf(Get(providerOptions, "context_size").value)
    {
      IntOf(GetOr(providerOptions, "context_size", Int(DefaultContextSize)))
    }

    /**
     * `_build_payload`: the base request, then every provider option except
     * `context_size` on top of it.
     */
    method BuildPayload(messages: seq<JSON>, tools: seq<JSON>, toolChoice: Option<string>, stream: bool)
      returns (payload: JSON)
      requires providerOptions.Obj?
      ensures payload == Update(BasePayload(messages, tools, toolChoice, stream, config.model),
                                Del(providerOptions, "context_size"))
    {
      var openaiToolChoice := OpenAIToolChoice(toolChoice);
      payload := Set(Set(Empty, "messages", Arr(messages)), "model", Str(config.model));
      if stream {
        payload := Set(payload, "stream", Bool(true));
      }
      if tools != [] {
        payload := Set(payload, "tools", Arr(tools));
        if openaiToolChoice.Some? {
          payload := Set(payload, "tool_choice", Str(openaiToolChoice.value));
        }
      }
      var providerOpts := Del(providerOptions, "context_size");
      payload := Update(payload, providerOpts);
    }

    /**
     * `chat_with_tools`: an error reply without a provider; otherwise the
     * payload is posted and the first choice read. `post` is the HTTP
     * exchange; an `Err` is any exception it raises.
     */
    method ChatWithTools(messages: seq<JSON>, tools: seq<JSON>, toolChoice: Option<string>,
                         post: JSON -> Result<JSON>, c: Codec)
      returns (r: Reply, ghost sent: Option<JSON>)
      requires providerOptions.Obj?
      ensures provider.None? ==> r == ErrorReply && sent.None?
      ensures provider.Some? ==> && sent == Some(Update(BasePayload(messages, tools, toolChoice, false, config.model),
                                                         Del(providerOptions, "context_size")))
                                 && r == ReplyOf(post(sent.value), c)
    {
      if provider.None? {
        return ErrorReply, None;
      }
      var payload := BuildPayload(messages, tools, toolChoice, false);
      sent := Some(payload);
      r := ReplyOf(post(payload), c);
    }

    /**
     * `chat_with_tools_stream`: one error message without a provider;
     * otherwise the streaming payload is posted and the response lines read
     * in order. `post` is the HTTP exchange: an `Err` is an exception raised
     * before any line (an HTTP error status included), and a body whose
     * iteration raises part-way has `raised` set.
     */
    method ChatWithToolsStream(messages: seq<JSON>, tools: seq<JSON>, toolChoice: Option<string>,
                               post: JSON -> Result<Streamed<string>>, c: Codec)
      returns (events: seq<StreamEvent>, ghost sent: Option<JSON>)
      requires providerOptions.Obj?
      ensures provider.None? ==> events == [Message(ErrorReply)] && sent.None?
      ensures provider.Some? ==> sent == Some(Update(BasePayload(messages, tools, toolChoice, true, config.model),
                                                     Del(providerOptions, "context_size")))
      ensures provider.Some? && post(sent.value).Err? ==> events == [Message(ErrorReply)]
      ensures provider.Some? && post(sent.value).Ok? ==> events == StreamEvents(post(sent.value).value, c)
    {
      if provider.None? {
        return [Message(ErrorReply)], None;
      }
      var payload := BuildPayload(messages, tools, toolChoice, true);
      sent := Some(payload);
      var response := post(payload);
      if response.Err? {
        return [Message(ErrorReply)], sent;
      }
      var body := response.value;
      var lines := body.chunks;
      var contentParts: seq<JSON> := [];
      var toolCallsByIndex: Slots<int> := Slots([], map[]);
      var finishReason := "stop";
      events := [];
      var k := 0;
      var done := false;
      while k < |lines|
        invariant 0 <= k <= |lines|
        invariant ReadLines(lines[..k], c) == Next(StreamState(contentParts, toolCallsByIndex, finishReason, events))
        invariant SlotsValid(toolCallsByIndex)
      {
        var st := StreamState(contentParts, toolCallsByIndex, finishReason, events);
        ReadLineAt(body, k, c, st);
        match StepLine(st, lines[k], c) {
          case Next(next) =>
            contentParts, toolCallsByIndex, finishReason, events := next.parts, next.slots, next.finishReason, next.events;
          case Done(_) =>
            done := true;
            break;
          case Raised(raised) =>
            return raised + [Message(ErrorReply)], sent;
        }
        k := k + 1;
      }
      ghost var st := StreamState(contentParts, toolCallsByIndex, finishReason, events);
      if !done {
        assert lines[..k] == lines;
        if body.raised {
          return events + [Message(ErrorReply)], sent;
        }
      }
      assert StreamEvents(body, c) == events + [Message(FinalMessage(st, c))];
      var texts := Texts(contentParts);
      if texts.None? {
        return events + [Message(ErrorReply)], sent;
      }
      var fullContent := JoinedContent(texts.value);
      var toolCallsList := StreamedToolCallsToList(toolCallsByIndex, c);
      if toolCallsList.Some? && toolCallsList.value != [] {
        finishReason := "tool_calls";
      }
      events := events + [Message(Reply(fullContent, toolCallsList, Some(finishReason)))];
    }
  }

  /** The request `_build_payload` starts from, before the provider options go on top. */
  function BasePayload(messages: seq<JSON>, tools: seq<JSON>, toolChoice: Option<string>, stream: bool, model: string): JSON {
    var p := Set(Set(Empty, "messages", Arr(messages)), "model", Str(model));
    var p := if stream then Set(p, "stream", Bool(true)) else p;
    if tools != [] then
      var p := Set(p, "tools", Arr(tools));
      if OpenAIToolChoice(toolChoice).Some? then Set(p, "tool_choice", Str(toolChoice.value)) else p
    else p
  }

  /**
   * What the payload carries: every provider option except `context_size`
   * (which is never sent), and where no option overrides them the messages,
   * the model, `stream` only when streaming, and `tools` with the mapped
   * `tool_choice` only for a non-empty tool list.
   */
  lemma PayloadFields(messages: seq<JSON>, tools: seq<JSON>, toolChoice: Option<string>, stream: bool,
                      model: string, options: JSON)
    requires options.Obj?
    ensures var p := Update(BasePayload(messages, tools, toolChoice, stream, model), Del(options, "context_size"));
      && !Has(p, "context_size")
      && (forall k :: k != "context_size" && Has(options, k) ==> Get(p, k) == Get(options, k))
      && (!Has(options, "messages") ==> Get(p, "messages") == Some(Arr(messages)))
      && (!Has(options, "model") ==> Get(p, "model") == Some(Str(model)))
      && (!Has(options, "stream") ==> Get(p, "stream") == (if stream then Some(Bool(true)) else None))
      && (!Has(options, "tools") ==> Get(p, "tools") == (if tools != [] then Some(Arr(tools)) else None))
      && (!Has(options, "tool_choice") ==>
            Get(p, "tool_choice") == (if tools != [] && OpenAIToolChoice(toolChoice).Some? then Some(Str(toolChoice.value)) else None))
  {
    BaseFields(messages, tools, toolChoice, stream, model);
    var opts := Del(options, "context_size");
    assert forall k :: Has(opts, k) <==> k != "context_size" && Has(options, k);
    assert forall k :: Has(opts, k) ==> Get(opts, k) == Get(options, k);
  }

  /** The base request's fields. */
  lemma BaseFields(messages: seq<JSON>, tools: seq<JSON>, toolChoice: Option<string>, stream: bool, model: string)
    ensures var p := BasePayload(messages, tools, toolChoice, stream, model);
      && p.Obj? && !Has(p, "context_size")
      && Get(p, "messages") == Some(Arr(messages)) && Get(p, "model") == Some(Str(model))
      && Get(p, "stream") == (if stream then Some(Bool(true)) else None)
      && Get(p, "tools") == (if tools != [] then Some(Arr(tools)) else None)
      && Get(p, "tool_choice") == (if tools != [] && OpenAIToolChoice(toolChoice).Some? then Some(Str(toolChoice.value)) else None)
  {
  }

  /**
   * The body of `chat_with_tools` after the POST: no body, no "choices" or
   * an empty list give the error reply, and so does any exception.
   */
  function ReplyOf(result: Result<JSON>, c: Codec): (r: Reply)
    ensures result.Err? ==> r == ErrorReply
    ensures result.Ok? && Get(result.value, "choices") == Some(Arr([])) ==> r == ErrorReply
    ensures result.Ok? && !Has(result.value, "choices") ==> r == ErrorReply
  {
    if result.Err? then ErrorReply
    else
      var choices := Get(result.value, "choices");
      if choices.Some? && choices.value.Arr? && choices.value.items != [] then
        match MessageFromChoice(choices.value.items[0], c)
        case Ok(reply) => reply
        case Err(_) => ErrorReply
      else ErrorReply
  }

  /** A provider's own `finish_reason`, when it is a non-empty string. */
  function NativeReason(v: Option<JSON>): Option<string> {
    if v.Some? && v.value.Str? && v.value.s != "" then Some(v.value.s) else None
  }

  /**
   * `_message_from_choice`: content stripped (absent or empty content is
   * None), tool calls parsed as the shared helper does, and the native finish
   * reason or else one derived from the calls and the content.
   */
  function MessageFromChoice(choice: JSON, c: Codec): Result<Reply> {
    if !choice.Obj? then Err("AttributeError: choice is not a dict")
    else
      var message := GetOr(choice, "message", Empty);
      if !message.Obj? then Err("AttributeError: message is not a dict")
      else
        var raw := GetOr(message, "content", Null);
        if Truthy(raw) && !raw.Str? then Err("AttributeError: content has no strip")
        else
          var content := if raw.Str? then StripIfTruthy(Some(raw.s)) else None;
          match ParseToolCallsSpec(message, c)
          case Err(e) => Err(e)
          case Ok(calls) =>
            var reason := NativeReason(Get(choice, "finish_reason"));
            Ok(Reply(content, calls, Some(if reason.Some? then reason.value
                                          else DerivedFinishReason(calls.Some?, content.Some? && content.value != ""))))
  }

  /**
   * The finish reason of a choice: the provider's own when it gives one,
   * else "tool_calls" when calls were parsed, else "stop" when there is
   * content, else "error".
   */
  lemma MessageFinishReason(choice: JSON, c: Codec)
    requires MessageFromChoice(choice, c).Ok?
    ensures var r := MessageFromChoice(choice, c).value;
      var native := NativeReason(Get(choice, "finish_reason"));
      && (native.Some? ==> r.finishReason == native)
      && (native.None? && r.toolCalls.Some? ==> r.finishReason == Some("tool_calls"))
      && (native.None? && r.toolCalls.None? && r.content.Some? && r.content.value != "" ==> r.finishReason == Some("stop"))
      && (native.None? && r.toolCalls.None? && (r.content.None? || r.content.value == "") ==> r.finishReason == Some("error"))
  {
  }

  /** Content is stripped, and only absent or empty content is None. */
  lemma MessageContent(choice: JSON, c: Codec)
    requires MessageFromChoice(choice, c).Ok?
    ensures var r := MessageFromChoice(choice, c).value;
      var raw := GetOr(GetOr(choice, "message", Empty), "content", Null);
      && (r.content.None? <==> !Truthy(raw))
      && (r.content.Some? ==> raw.Str? && r.content.value == Strip(raw.s))
  {
  }

  // ---------------------------------------------------------------------
  // the stream

  /** Ascending order, equal neighbours allowed. */
  predicate Ascending(s: seq<int>) {
    forall i, j :: 0 <= i < j < |s| ==> s[i] <= s[j]
  }

  /** `x` put into an ascending list before the first element not smaller than it. */
  function Insert(x: int, s: seq<int>): (r: seq<int>)
    ensures multiset(r) == multiset(s) + multiset{x}
  {
    if s == [] then [x]
    else if x <= s[0] then [x] + s
    else
      assert s == [s[0]] + s[1..];
      [s[0]] + Insert(x, s[1..])
  }

  lemma {:induction false} InsertAscending(x: int, s: seq<int>)
    requires Ascending(s)
    ensures Ascending(Insert(x, s))
  {
    if s != [] && x > s[0] {
      var rest := Insert(x, s[1..]);
      InsertAscending(x, s[1..]);
      forall k | 0 <= k < |rest| ensures s[0] <= rest[k] {
        assert rest[k] in multiset(rest);
        assert rest[k] == x || rest[k] in multiset(s[1..]);
        if rest[k] != x {
          assert rest[k] in s[1..];
        }
      }
    }
  }

  /** `sorted(keys)`: the same keys, ascending. */
  function SortedKeys(keys: seq<int>): (r: seq<int>)
    ensures multiset(r) == multiset(keys)
    ensures Ascending(r)
  {
    if keys == [] then []
    else
      var front := keys[..|keys| - 1];
      assert keys == front + [keys[|keys| - 1]];
      InsertAscending(keys[|keys| - 1], SortedKeys(front));
      Insert(keys[|keys| - 1], SortedKeys(front))
  }

  /** One accumulated slot as a call: arguments `or "{}"`, decoded, `{}` when they do not decode. */
  function SlotCall(t: Slot, c: Codec): ToolCall {
    var argsText := if t.arguments == "" then "{}" else t.arguments;
    ToolCall(t.id, t.name, match c.loads(argsText) case Some(v) => v case None => Empty)
  }

  /** The slots under the given indexes, in that order, as calls. */
  function CallsInOrder(slots: Slots<int>, order: seq<int>, c: Codec): (r: seq<ToolCall>)
    ensures |r| == |order|
  {
    if order == [] then [] else CallsInOrder(slots, order[..|order| - 1], c) + [SlotCall(SlotAt(slots, order[|order| - 1]), c)]
  }

  /** The specification of `_streamed_tool_calls_to_list`. */
  function SlotsToCalls(slots: Slots<int>, c: Codec): Option<seq<ToolCall>> {
    if slots.at == map[] then None
    else
      var calls := CallsInOrder(slots, SortedKeys(slots.order), c);
      if calls == [] then None else Some(calls)
  }

  /** One more index of the order adds its slot's call at the end. */
  lemma CallsInOrderNext(slots: Slots<int>, order: seq<int>, k: nat, c: Codec)
    requires k < |order|
    ensures CallsInOrder(slots, order[..k + 1], c) == CallsInOrder(slots, order[..k], c) + [SlotCall(SlotAt(slots, order[k]), c)]
  {
    assert order[..k + 1][..k] == order[..k];
  }

  /**
   * `_streamed_tool_calls_to_list`: None when no slot was opened, otherwise
   * one call per slot in ascending stream index.
   */
  method StreamedToolCallsToList(slots: Slots<int>, c: Codec) returns (r: Option<seq<ToolCall>>)
    ensures r == SlotsToCalls(slots, c)
  {
    if slots.at == map[] {
      return None;
    }
    var order := SortedKeys(slots.order);
    var result: seq<ToolCall> := [];
    var k := 0;
    while k < |order|
      invariant 0 <= k <= |order|
      invariant result == CallsInOrder(slots, order[..k], c)
    {
      var t := SlotAt(slots, order[k]);
      var argsText := if t.arguments == "" then "{}" else t.arguments;
      var arguments := match c.loads(argsText) case Some(v) => v case None => Empty;
      assert ToolCall(t.id, t.name, arguments) == SlotCall(t, c);
      CallsInOrderNext(slots, order, k, c);
      result := result + [ToolCall(t.id, t.name, arguments)];
      k := k + 1;
    }
    assert order[..k] == order;
    r := if result == [] then None else Some(result);
  }

  /**
   * With at least one slot the calls are listed in ascending stream index,
   * one for each slot, with empty argument text read as `{}` and text that
   * does not decode as an empty dict.
   */
  lemma SlotsToCallsOrder(slots: Slots<int>, c: Codec)
    requires SlotsValid(slots) && slots.at != map[]
    ensures var r := SlotsToCalls(slots, c);
      var order := SortedKeys(slots.order);
      && r.Some? && r.value != [] && Ascending(order) && multiset(order) == multiset(slots.order)
      && |r.value| == |order|
      && forall i :: 0 <= i < |order| ==>
           && order[i] in slots.at
           && r.value[i].id == slots.at[order[i]].id && r.value[i].name == slots.at[order[i]].name
           && (slots.at[order[i]].arguments == "" ==> r.value[i].arguments == (match c.loads("{}") case Some(v) => v case None => Empty))
           && (c.loads(slots.at[order[i]].arguments).None? && slots.at[order[i]].arguments != "" ==> r.value[i].arguments == Empty)
  {
    var order := SortedKeys(slots.order);
    CallsInOrderAt(slots, order, c);
    var someKey :| someKey in slots.at;
    assert someKey in multiset(order);
    forall i | 0 <= i < |order| ensures order[i] in slots.at {
      assert order[i] in multiset(slots.order);
    }
  }

  lemma {:induction false} CallsInOrderAt(slots: Slots<int>, order: seq<int>, c: Codec)
    ensures forall i :: 0 <= i < |order| ==> CallsInOrder(slots, order, c)[i] == SlotCall(SlotAt(slots, order[i]), c)
  {
    if order != [] {
      CallsInOrderAt(slots, order[..|order| - 1], c);
    }
  }

  /** Everything a stream has read so far: the content values kept, the slots, the finish reason and the events yielded. */
  datatype StreamState = StreamState(parts: seq<JSON>, slots: Slots<int>, finishReason: string, events: seq<StreamEvent>)

  /** After a line: keep reading, stop at `[DONE]`, or an exception was raised. */
  datatype LineOutcome = Next(st: StreamState) | Done(st: StreamState) | Raised(events: seq<StreamEvent>)

  const DataPrefix := "data: "
  const DoneMarker := "[DONE]"

  /** The delta yielded for a truthy content value: text as text, anything else as it is. */
  function DeltaOf(v: JSON): StreamEvent {
    if v.Str? then ContentDelta(v.s) else ValueDelta(v)
  }

  /** `"".join(parts)` succeeds iff every part is a string; then these are the strings, in order. */
  function Texts(parts: seq<JSON>): (r: Option<seq<string>>)
    ensures r.Some? <==> forall i :: 0 <= i < |parts| ==> parts[i].Str?
    ensures r.Some? ==> |r.value| == |parts| && forall i :: 0 <= i < |parts| ==> r.value[i] == parts[i].s
  {
    if parts == [] then Some([])
    else
      var last := parts[|parts| - 1];
      match Texts(parts[..|parts| - 1])
      case None => None
      case Some(front) => if last.Str? then Some(front + [last.s]) else None
  }

  /**
   * The slot key of a fragment's `index`: an int, or a bool, which Python
   * hashes as 1 or 0 and so shares that slot. Other indexes are not
   * modelled (None).
   */
  function SlotKey(index: JSON): (r: Option<int>)
    ensures index.Int? ==> r == Some(index.i)
    ensures index.Bool? ==> r == Some(if index.b then 1 else 0)
    ensures !index.Int? && !index.Bool? ==> r.None?
  {
    match index
    case Int(i) => Some(i)
    case Bool(b) => Some(if b then 1 else 0)
    case _ => None
  }

  /** The fragment's own value for `k` when truthy, else its function's; None standing for a missing key. */
  function EitherGet(tc: JSON, fn: JSON, k: string): Option<JSON> {
    if Truthy(GetOr(tc, k, Null)) then Get(tc, k) else Get(fn, k)
  }

  /**
   * Whether folding the fragment calls `fn.get`: the `or` reaches the
   * function only for a falsy own `name` (a new slot's name and the name
   * update) or a falsy own `arguments`.
   */
  predicate ReadsFunction(tc: JSON) {
    !Truthy(GetOr(tc, "name", Null)) || !Truthy(GetOr(tc, "arguments", Null))
  }

  /**
   * One tool-call fragment folded into the slots: a new index opens a slot,
   * a truthy id or name replaces the slot's, and any non-null arguments are
   * appended (non-strings JSON-encoded). A truthy `function` that is not a
   * dict raises only when it is read.
   */
  function ApplyFragment(slots: Slots<int>, tc: JSON, c: Codec): Result<Slots<int>> {
    if !tc.Obj? then Err("AttributeError: tool call fragment is not a dict")
    else
      var key := SlotKey(GetOr(tc, "index", Int(0)));
      var fn := if Truthy(GetOr(tc, "function", Null)) then GetOr(tc, "function", Null) else Empty;
      if key.None? then Err("stream index is neither an int nor a bool")
      else if !fn.Obj? && ReadsFunction(tc) then Err("AttributeError: function is not a dict")
      else
        var idx := key.value;
        var slot := if idx in slots.at then slots.at[idx]
                    else Slot(GetOr(tc, "id", Str("")),
                              if Truthy(GetOr(tc, "name", Null)) then GetOr(tc, "name", Null) else GetOr(fn, "name", Str("")),
                              "");
        var id := if Truthy(GetOr(tc, "id", Null)) then GetOr(tc, "id", Null) else slot.id;
        var name := EitherGet(tc, fn, "name");
        var name' := if name.Some? && Truthy(name.value) then name.value else slot.name;
        var arg := EitherGet(tc, fn, "arguments");
        var piece := if arg.None? || arg.value.Null? then "" else if arg.value.Str? then arg.value.s else c.dumps(arg.value);
        Ok(PutSlot(slots, idx, Slot(id, name', slot.arguments + piece)))
  }

  /** The fragments of one delta folded in order; the first failing fragment stops the chunk. */
  function ApplyFragments(slots: Slots<int>, fragments: seq<JSON>, c: Codec): Result<Slots<int>> {
    if fragments == [] then Ok(slots)
    else match ApplyFragments(slots, fragments[..|fragments| - 1], c)
      case Err(e) => Err(e)
      case Ok(s) => ApplyFragment(s, fragments[|fragments| - 1], c)
  }

  /**
   * A fragment for stream index `idx`: a new index opens a slot at the end
   * of the order, the slot's argument text grows by the fragment's piece,
   * its id changes only when the fragment supplies a truthy one, and every
   * other slot is untouched. A fragment with its own truthy name and
   * arguments never reads its `function`, whatever that is.
   */
  lemma FragmentAccumulates(slots: Slots<int>, tc: JSON, c: Codec)
    ensures tc.Obj? && SlotKey(GetOr(tc, "index", Int(0))).Some? && !ReadsFunction(tc) ==> ApplyFragment(slots, tc, c).Ok?
    ensures ApplyFragment(slots, tc, c).Ok? ==>
      var s := ApplyFragment(slots, tc, c).value;
      var idx := SlotKey(GetOr(tc, "index", Int(0))).value;
      && idx in s.at && s.at.Keys == slots.at.Keys + {idx}
      && (idx in slots.at ==> s.order == slots.order)
      && (idx !in slots.at ==> s.order == slots.order + [idx])
      && (forall j :: j in slots.at && j != idx ==> s.at[j] == slots.at[j])
      && (idx in slots.at ==> |slots.at[idx].arguments| <= |s.at[idx].arguments|
                              && s.at[idx].arguments[..|slots.at[idx].arguments|] == slots.at[idx].arguments)
      && (idx in slots.at && !Truthy(GetOr(tc, "id", Null)) ==> s.at[idx].id == slots.at[idx].id)
      && (Truthy(GetOr(tc, "id", Null)) ==> s.at[idx].id == GetOr(tc, "id", Null))
  {
  }

  /** Folding fragments keeps each slot key listed once. */
  lemma {:induction false} FragmentsKeepSlots(slots: Slots<int>, fragments: seq<JSON>, c: Codec)
    requires SlotsValid(slots)
    ensures ApplyFragments(slots, fragments, c).Ok? ==> SlotsValid(ApplyFragments(slots, fragments, c).value)
  {
    if fragments != [] {
      var front := ApplyFragments(slots, fragments[..|fragments| - 1], c);
      FragmentsKeepSlots(slots, fragments[..|fragments| - 1], c);
      if front.Ok? {
        forall k: int, slot: Slot ensures SlotsValid(PutSlot(front.value, k, slot)) {
          PutSlotKeepsValid(front.value, k, slot);
        }
      }
    }
  }

  /** Whether a line is one the stream reads at all. */
  predicate IsDataLine(line: string) {
    StartsWith(line, DataPrefix)
  }

  /** The delta's tool-call fragments, none when the key is missing or falsy; a truthy non-list raises. */
  function Fragments(delta: JSON): Result<seq<JSON>> {
    var raw := GetOr(delta, "tool_calls", Null);
    if !Truthy(raw) then Ok([]) else if raw.Arr? then Ok(raw.items) else Err("TypeError: tool_calls is not a list")
  }

  /**
   * One decoded chunk: the finish reason, the content delta, then the
   * tool-call fragments. A chunk that is not a dict raises; one without
   * choices changes nothing. Otherwise a truthy string finish reason of the
   * first choice replaces the current one, truthy content of any kind is both
   * kept and yielded, and the fragments are folded into the slots; a raise
   * keeps what was yielded up to it.
   */
  function ApplyChunk(st: StreamState, data: JSON, c: Codec): (r: LineOutcome)
    ensures !r.Done?
    ensures !data.Obj? ==> r == Raised(st.events)
    ensures data.Obj? && !Truthy(GetOr(data, "choices", Null)) ==> r == Next(st)
    ensures r.Raised? ==> r.events == st.events || exists v :: r.events == st.events + [DeltaOf(v)]
    ensures r.Next? ==> (r.st.parts == st.parts && r.st.events == st.events) || exists v :: r.st.parts == st.parts + [v] && r.st.events == st.events + [DeltaOf(v)]
    ensures var choices := GetOr(data, "choices", Null);
            r.Next? && data.Obj? && choices.Arr? && choices.items != [] && choices.items[0].Obj? ==>
              var choice := choices.items[0];
              var delta := GetOr(choice, "delta", Empty);
              var text := GetOr(delta, "content", Null);
              var reason := NativeReason(Get(choice, "finish_reason"));
              && r.st.finishReason == (if reason.Some? then reason.value else st.finishReason)
              && (Truthy(text) ==> r.st.parts == st.parts + [text] && r.st.events == st.events + [DeltaOf(text)])
              && (!Truthy(text) ==> r.st.parts == st.parts && r.st.events == st.events)
              && Fragments(delta).Ok?
              && ApplyFragments(st.slots, Fragments(delta).value, c) == Ok(r.st.slots)
  {
    if !data.Obj? then Raised(st.events)
    else
      var choices := GetOr(data, "choices", Null);
      if !Truthy(choices) then Next(st)
      else if !choices.Arr? || !choices.items[0].Obj? then Raised(st.events)
      else
        var choice := choices.items[0];
        var delta := GetOr(choice, "delta", Empty);
        if !delta.Obj? then Raised(st.events)
        else
          var reason := NativeReason(Get(choice, "finish_reason"));
          var finishReason := if reason.Some? then reason.value else st.finishReason;
          var text := GetOr(delta, "content", Null);
          var parts := if Truthy(text) then st.parts + [text] else st.parts;
          var events := if Truthy(text) then st.events + [DeltaOf(text)] else st.events;
          match Fragments(delta)
          case Err(_) => Raised(events)
          case Ok(fragments) =>
            match ApplyFragments(st.slots, fragments, c)
            case Err(_) => Raised(events)
            case Ok(slots) => Next(StreamState(parts, slots, finishReason, events))
  }

  /** One line of the response body. */
  function StepLine(st: StreamState, line: string, c: Codec): LineOutcome {
    if !IsDataLine(line) then Next(st)
    else
      var dataText := Strip(line[|DataPrefix|..]);
      if dataText == DoneMarker then Done(st)
      else match c.loads(dataText)
        case None => Next(st)
        case Some(data) => ApplyChunk(st, data, c)
  }

  const InitialStream := StreamState([], Slots([], map[]), "stop", [])

  /** The lines read in order; after `[DONE]` or an exception nothing more is read. */
  function ReadLines(lines: seq<string>, c: Codec): LineOutcome {
    if lines == [] then Next(InitialStream)
    else match ReadLines(lines[..|lines| - 1], c)
      case Next(st) => StepLine(st, lines[|lines| - 1], c)
      case other => other
  }

  /**
   * The final message: joined content, the calls, and "tool_calls" whenever
   * any call was accumulated; the error reply when some kept content is not
   * text, since joining it raises.
   */
  function FinalMessage(st: StreamState, c: Codec): Reply {
    match Texts(st.parts)
    case None => ErrorReply
    case Some(texts) =>
      var calls := SlotsToCalls(st.slots, c);
      Reply(JoinedContent(texts), calls, Some(if calls.Some? && calls.value != [] then "tool_calls" else st.finishReason))
  }

  /**
   * The specification of `chat_with_tools_stream` once the request was
   * accepted: the deltas read, then the final message, or the error reply
   * when a line or the body's own iteration raised.
   */
  function StreamEvents(body: Streamed<string>, c: Codec): seq<StreamEvent> {
    match ReadLines(body.chunks, c)
    case Next(st) => st.events + [Message(if body.raised then ErrorReply else FinalMessage(st, c))]
    case Done(st) => st.events + [Message(FinalMessage(st, c))]
    case Raised(events) => events + [Message(ErrorReply)]
  }

  /** One more line read after `lines`. */
  lemma ReadLinesSnoc(lines: seq<string>, line: string, c: Codec)
    ensures ReadLines(lines + [line], c) ==
              if ReadLines(lines, c).Next? then StepLine(ReadLines(lines, c).st, line, c) else ReadLines(lines, c)
  {
    assert (lines + [line])[..|lines + [line]| - 1] == lines;
  }

  /** Once reading has stopped, later lines change nothing. */
  lemma {:induction false} ReadPastEnd(lines: seq<string>, k: nat, c: Codec)
    requires k <= |lines| && !ReadLines(lines[..k], c).Next?
    ensures ReadLines(lines, c) == ReadLines(lines[..k], c)
    decreases |lines| - k
  {
    if k < |lines| {
      assert lines[..k + 1] == lines[..k] + [lines[k]];
      ReadLinesSnoc(lines[..k], lines[k], c);
      ReadPastEnd(lines, k + 1, c);
    } else {
      assert lines[..k] == lines;
    }
  }

  /**
   * Reading line `k` of the body after the lines before it: the state moves
   * on, or the stream ends here with the events `StreamEvents` gives for the
   * whole body, whatever the body would have done later.
   */
  lemma ReadLineAt(body: Streamed<string>, k: nat, c: Codec, st: StreamState)
    requires k < |body.chunks| && ReadLines(body.chunks[..k], c) == Next(st) && SlotsValid(st.slots)
    ensures StepLine(st, body.chunks[k], c).Next? ==>
              ReadLines(body.chunks[..k + 1], c) == StepLine(st, body.chunks[k], c)
              && SlotsValid(StepLine(st, body.chunks[k], c).st.slots)
    ensures StepLine(st, body.chunks[k], c).Done? ==> StreamEvents(body, c) == st.events + [Message(FinalMessage(st, c))]
    ensures StepLine(st, body.chunks[k], c).Raised? ==>
              StreamEvents(body, c) == StepLine(st, body.chunks[k], c).events + [Message(ErrorReply)]
  {
    var lines := body.chunks;
    assert lines[..k + 1] == lines[..k] + [lines[k]];
    ReadLinesSnoc(lines[..k], lines[k], c);
    StepLineKeepsSlots(st, lines[k], c);
    StepLineDone(st, lines[k], c);
    if !StepLine(st, lines[k], c).Next? {
      ReadPastEnd(lines, k + 1, c);
    }
  }

  /** Lines that do not start with "data: " are skipped: reading only the data lines gives the same result. */
  lemma {:induction false} NonDataLinesSkipped(lines: seq<string>, c: Codec)
    ensures ReadLines(lines, c) == ReadLines(Filter(IsDataLine, lines), c)
  {
    if lines != [] {
      var front := lines[..|lines| - 1];
      var line := lines[|lines| - 1];
      assert lines == front + [line];
      NonDataLinesSkipped(front, c);
      ReadLinesSnoc(front, line, c);
      var kept := Filter(IsDataLine, front);
      if IsDataLine(line) {
        assert Filter(IsDataLine, lines) == kept + [line];
        ReadLinesSnoc(kept, line, c);
      } else {
        assert Filter(IsDataLine, lines) == kept + [];
        assert kept + [] == kept;
      }
    }
  }

  /** A line that ends the stream: "data: " followed by `[DONE]` and optional spacing. */
  predicate IsDoneLine(line: string) {
    IsDataLine(line) && Strip(line[|DataPrefix|..]) == DoneMarker
  }

  /** Nothing after a `[DONE]` line is read. */
  lemma DoneStopsReading(before: seq<string>, line: string, after: seq<string>, c: Codec)
    requires IsDoneLine(line)
    ensures ReadLines(before + [line] + after, c) == ReadLines(before + [line], c)
    ensures ReadLines(before, c).Next? ==> ReadLines(before + [line], c) == Done(ReadLines(before, c).st)
  {
    var lines := before + [line] + after;
    var k := |before| + 1;
    assert lines[..k] == before + [line];
    ReadLinesSnoc(before, line, c);
    ReadPastEnd(lines, k, c);
  }

  /** Events yielded so far: deltas only, no message. */
  predicate OnlyDeltas(events: seq<StreamEvent>) {
    forall i :: 0 <= i < |events| ==> !events[i].Message?
  }

  /** The events yielded are exactly the deltas of the content kept, one each, in order. */
  predicate DeltasOfParts(parts: seq<JSON>, events: seq<StreamEvent>) {
    |events| == |parts| && forall i :: 0 <= i < |parts| ==> events[i] == DeltaOf(parts[i])
  }

  /** The events an outcome has yielded. */
  function Yielded(o: LineOutcome): seq<StreamEvent> {
    match o
    case Next(st) => st.events
    case Done(st) => st.events
    case Raised(events) => events
  }

  /** A line can only add deltas, and what was yielded stays yielded. */
  lemma StepLineYields(st: StreamState, line: string, c: Codec)
    requires OnlyDeltas(st.events)
    ensures var events := Yielded(StepLine(st, line, c));
      OnlyDeltas(events) && |st.events| <= |events| && events[..|st.events|] == st.events
  {
    if IsDataLine(line) && Strip(line[|DataPrefix|..]) != DoneMarker && c.loads(Strip(line[|DataPrefix|..])).Some? {
      ApplyChunkYields(st, c.loads(Strip(line[|DataPrefix|..])).value, c);
    }
  }

  lemma ApplyChunkYields(st: StreamState, data: JSON, c: Codec)
    requires OnlyDeltas(st.events)
    ensures var events := Yielded(ApplyChunk(st, data, c));
      OnlyDeltas(events) && |st.events| <= |events| && events[..|st.events|] == st.events
  {
  }

  /** A line that keeps reading keeps every yielded delta paired with the content it kept. */
  lemma StepLineMatchesParts(st: StreamState, line: string, c: Codec)
    requires DeltasOfParts(st.parts, st.events)
    ensures !StepLine(st, line, c).Raised? ==> DeltasOfParts(StepLine(st, line, c).st.parts, StepLine(st, line, c).st.events)
  {
  }

  /** Until it stops, the stream has yielded exactly one delta per content value kept. */
  lemma {:induction false} ReadLinesMatchParts(lines: seq<string>, c: Codec)
    ensures !ReadLines(lines, c).Raised? ==> DeltasOfParts(ReadLines(lines, c).st.parts, ReadLines(lines, c).st.events)
  {
    if lines != [] {
      var front := lines[..|lines| - 1];
      ReadLinesMatchParts(front, c);
      assert lines == front + [lines[|lines| - 1]];
      ReadLinesSnoc(front, lines[|lines| - 1], c);
      if ReadLines(front, c).Next? {
        StepLineMatchesParts(ReadLines(front, c).st, lines[|lines| - 1], c);
      }
    }
  }

  /** Only a `[DONE]` line stops the reading, and it changes nothing. */
  lemma StepLineDone(st: StreamState, line: string, c: Codec)
    ensures StepLine(st, line, c).Done? <==> IsDoneLine(line)
    ensures StepLine(st, line, c).Done? ==> StepLine(st, line, c).st == st
  {
  }

  /** A line keeps each slot key listed once. */
  lemma StepLineKeepsSlots(st: StreamState, line: string, c: Codec)
    requires SlotsValid(st.slots)
    ensures !StepLine(st, line, c).Raised? ==> SlotsValid(StepLine(st, line, c).st.slots)
  {
    if IsDataLine(line) && Strip(line[|DataPrefix|..]) != DoneMarker && c.loads(Strip(line[|DataPrefix|..])).Some? {
      var data := c.loads(Strip(line[|DataPrefix|..])).value;
      var choices := GetOr(data, "choices", Null);
      if data.Obj? && Truthy(choices) && choices.Arr? && choices.items[0].Obj? {
        var delta := GetOr(choices.items[0], "delta", Empty);
        if delta.Obj? && Fragments(delta).Ok? {
          FragmentsKeepSlots(st.slots, Fragments(delta).value, c);
        }
      }
    }
  }

  /** However many lines were read, each slot key is listed once. */
  lemma {:induction false} ReadLinesKeepSlots(lines: seq<string>, c: Codec)
    ensures !ReadLines(lines, c).Raised? ==> SlotsValid(ReadLines(lines, c).st.slots)
  {
    if lines != [] {
      var front := lines[..|lines| - 1];
      ReadLinesKeepSlots(front, c);
      assert lines == front + [lines[|lines| - 1]];
      ReadLinesSnoc(front, lines[|lines| - 1], c);
      if ReadLines(front, c).Next? {
        StepLineKeepsSlots(ReadLines(front, c).st, lines[|lines| - 1], c);
      }
    }
  }

  /** Until the final message, the stream yields only deltas. */
  lemma {:induction false} ReadOnlyDeltas(lines: seq<string>, c: Codec)
    ensures OnlyDeltas(Yielded(ReadLines(lines, c)))
  {
    if lines != [] {
      var front := lines[..|lines| - 1];
      ReadOnlyDeltas(front, c);
      assert lines == front + [lines[|lines| - 1]];
      ReadLinesSnoc(front, lines[|lines| - 1], c);
      if ReadLines(front, c).Next? {
        StepLineYields(ReadLines(front, c).st, lines[|lines| - 1], c);
      }
    }
  }

  /**
   * The last event is the single final message and every earlier one a delta
   * yielded while reading. When the body's iteration raises before `[DONE]`
   * that message is the error reply, after the deltas already yielded. When
   * reading ends normally the deltas are those of the content kept, and the
   * message is the error reply when some of that content is not text;
   * otherwise its finish reason is "tool_calls" whenever a call was
   * accumulated.
   */
  lemma StreamShape(body: Streamed<string>, c: Codec)
    ensures EndsWithMessage(StreamEvents(body, c))
    ensures var events := StreamEvents(body, c);
      events[..|events| - 1] == Yielded(ReadLines(body.chunks, c))
    ensures body.raised && ReadLines(body.chunks, c).Next? ==>
              StreamEvents(body, c)[|StreamEvents(body, c)| - 1] == Message(ErrorReply)
    ensures var o := ReadLines(body.chunks, c);
      (o.Done? || (o.Next? && !body.raised)) ==>
        && DeltasOfParts(o.st.parts, o.st.events)
        && (Texts(o.st.parts).None? ==> StreamEvents(body, c)[|StreamEvents(body, c)| - 1] == Message(ErrorReply))
        && (Texts(o.st.parts).Some? && o.st.slots.at != map[] ==>
              StreamEvents(body, c)[|StreamEvents(body, c)| - 1].reply.finishReason == Some("tool_calls"))
  {
    var lines := body.chunks;
    ReadOnlyDeltas(lines, c);
    var events := StreamEvents(body, c);
    var before := Yielded(ReadLines(lines, c));
    assert events[..|events| - 1] == before;
    forall i | 0 <= i < |events| - 1 ensures !events[i].Message? {
      assert events[i] == before[i];
    }
    ReadLinesKeepSlots(lines, c);
    ReadLinesMatchParts(lines, c);
    var o := ReadLines(lines, c);
    if !o.Raised? && o.st.slots.at != map[] {
      SlotsToCallsOrder(o.st.slots, c);
    }
  }
}
