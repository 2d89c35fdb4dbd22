/**
 * The OpenAI adapter. The SDK hands back typed objects, modelled here as
 * datatypes; `create` and `models.list` are parameters.
 */
module OpenAI {
  import opened Wrappers
  import opened Json
  import opened Text
  import opened GenaiUtils
  import opened ProviderCommon

  /** A model entry from `models.list()`; `maxModelLen` is None when the server does not report one. */
  datatype ModelInfo = ModelInfo(id: string, maxModelLen: Option<int>)

  /** `ChatCompletionMessageToolCall` and its function. */
  datatype SdkToolCall = SdkToolCall(id: string, name: string, arguments: string)
  /** `ChatCompletionMessage`: content may be absent, `toolCalls` empty. */
  datatype SdkMessage = SdkMessage(content: Option<string>, toolCalls: seq<SdkToolCall>)
  datatype SdkChoice = SdkChoice(message: SdkMessage, finishReason: Option<string>)
  datatype Completion = Completion(choices: seq<SdkChoice>)

  /** One streamed tool-call fragment: `tc.index`, `tc.id`, and `tc.fn` with its optional name and arguments. */
  datatype FunctionDelta = FunctionDelta(name: Option<string>, arguments: Option<string>)
  datatype ToolCallDelta = ToolCallDelta(index: int, id: Option<string>, fn: Option<FunctionDelta>)
  datatype Delta = Delta(content: Option<string>, toolCalls: Option<seq<ToolCallDelta>>)
  datatype ChunkChoice = ChunkChoice(delta: Delta, finishReason: Option<string>)
  /** A streamed chunk; None stands for an empty chunk object. */
  datatype Chunk = Chunk(choices: seq<ChunkChoice>)

  /** `_init_provider`: the client options are the provider options without `context_size`, with a configured base URL added. */
  function ClientOptions(config: GenAIConfig): (r: JSON)
    requires config.providerOptions.Obj?
    ensures r.Obj? && !Has(r, "context_size")
    ensures Given(config.baseUrl) ==> Get(r, "base_url") == Some(Str(config.baseUrl.value))
    ensures forall k :: k != "context_size" && k != "base_url" ==> Get(r, k) == Get(config.providerOptions, k)
    ensures !Given(config.baseUrl) ==> Get(r, "base_url") == Get(config.providerOptions, "base_url")
  {
    var opts := Del(config.providerOptions, "context_size");
    if Given(config.baseUrl) then Set(opts, "base_url", Str(config.baseUrl.value)) else opts
  }

  /** A listed model entry that has the id `model` and a truthy `max_model_len`. */
  predicate Reports(m: ModelInfo, model: string) {
    m.id == model && m.maxModelLen.Some? && m.maxModelLen.value != 0
  }

  /** The context size the API reports for `model`: the first listed entry with that id and a non-zero length. */
  function ListedContextSize(models: seq<ModelInfo>, model: string): (r: Option<int>)
    ensures r.Some? ==> exists i :: 0 <= i < |models| && Reports(models[i], model) && models[i].maxModelLen == r
                                    && forall j :: 0 <= j < i ==> !Reports(models[j], model)
    ensures r.None? ==> forall i :: 0 <= i < |models| ==> !Reports(models[i], model)
  {
    if models == [] then None
    else if Reports(models[0], model) then models[0].maxModelLen
    else
      var r := ListedContextSize(models[1..], model);
      if r.Some? then
        assert exists i :: 1 <= i < |models| && Reports(models[i], model) && models[i].maxModelLen == r
                           && forall j :: 0 <= j < i ==> !Reports(models[j], model) by {
          var k :| 0 <= k < |models[1..]| && Reports(models[1..][k], model) && models[1..][k].maxModelLen == r
                   && forall j :: 0 <= j < k ==> !Reports(models[1..][j], model);
          assert models[k + 1] == models[1..][k];
          forall j | 0 <= j < k + 1 ensures !Reports(models[j], model) {
            if j > 0 { assert models[j] == models[1..][j - 1]; }
          }
        }
        r
      else
        assert forall i :: 1 <= i < |models| ==> models[i] == models[1..][i - 1];
        r
  }

  /** The default when neither the options nor the API give a size: 128000 for GPT models, else 8192. */
  function DefaultContextSize(model: string): (r: int)
    ensures r == 128000 <==> Contains(Lower(model), "gpt")
    ensures r == 8192 <==> !Contains(Lower(model), "gpt")
  {
    if Contains(Lower(model), "gpt") then 128000 else 8192
  }

  /** The size `get_context_size` settles on when nothing is cached. */
  function ResolvedContextSize(options: JSON, models: Result<seq<ModelInfo>>, model: string): JSON {
    if Has(options, "context_size") then Get(options, "context_size").value
    else if models.Ok? && ListedContextSize(models.value, model).Some? then Int(ListedContextSize(models.value, model).value)
    else Int(DefaultContextSize(model))
  }

  /**
   * The order `get_context_size` resolves in: the `context_size` option
   * as given, then the API's reported length, then the model-name default.
   */
  lemma ContextSizeOrder(options: JSON, models: Result<seq<ModelInfo>>, model: string)
    ensures Has(options, "context_size") ==> ResolvedContextSize(options, models, model) == options.values["context_size"]
    ensures !Has(options, "context_size") && (models.Err? || ListedContextSize(models.value, model).None?) ==>
              ResolvedContextSize(options, models, model) == Int(if Contains(Lower(model), "gpt") then 128000 else 8192)
    ensures !Has(options, "context_size") && models.Ok? && ListedContextSize(models.value, model).Some? ==>
              var n := ResolvedContextSize(options, models, model);
              n.Int? && n.i != 0 && exists i :: 0 <= i < |models.value| && models.value[i].id == model && models.value[i].maxModelLen == Some(n.i)
  {
  }

  /** `OpenAIClient`: the SDK client's options and the cached context size (Null while unset). */
  class OpenAIClient {
    const config: GenAIConfig
    const clientOptions: JSON
    var contextSize: JSON

    constructor (config: GenAIConfig)
      requires config.providerOptions.Obj?
      ensures this.config == config && clientOptions == ClientOptions(config) && contextSize == Null
    {
      this.config := config;
      clientOptions := ClientOptions(config);
      contextSize := Null;
    }

    /**
     * `get_context_size`: the cached value when there is one; otherwise the
     * resolved size, which is then cached. `models` is what `models.list()`
     * returns, or the exception it raises.
     */
    method GetContextSize(models: Result<seq<ModelInfo>>) returns (size: JSON)
      modifies this
      ensures old(contextSize) != Null ==> size == old(contextSize)
      ensures old(contextSize) == Null ==> size == ResolvedContextSize(config.providerOptions, models, config.model)
      ensures contextSize == size
    {
      if contextSize != Null {
        return contextSize;
      }
      if Has(config.providerOptions, "context_size") {
        contextSize := config.providerOptions.values["context_size"];
        return contextSize;
      }
      if models.Ok? {
        var data := models.value;
        var i := 0;
        while i < |data|
          invariant 0 <= i <= |data|
          invariant ListedContextSize(data, config.model) == ListedContextSize(data[i..], config.model)
        {
          assert data[i..][1..] == data[i + 1..];
          if data[i].id == config.model {
            if data[i].maxModelLen.Some? && data[i].maxModelLen.value != 0 {
              contextSize := Int(data[i].maxModelLen.value);
              return contextSize;
            }
          }
          i := i + 1;
        }
      }
      var modelName := Lower(config.model);
      if Contains(modelName, "gpt") {
        contextSize := Int(128000);
      } else {
        contextSize := Int(8192);
      }
      size := contextSize;
    }

    /**
     * `chat_with_tools`: the request is sent through `create`, whose `Err`
     * is any exception (timeouts included); `sent` is the request.
     */
    method ChatWithTools(messages: seq<JSON>, tools: seq<JSON>, toolChoice: Option<string>, timeout: int,
                         create: JSON -> Result<Option<Completion>>, c: Codec)
      returns (r: Reply, ghost sent: JSON)
      requires config.providerOptions.Obj?
      ensures sent == RequestParams(config, messages, tools, toolChoice, timeout, false)
      ensures create(sent).Err? ==> r == ErrorReply
      ensures create(sent).Ok? ==> r == CompletionReply(create(sent).value, c)
    {
      var requestParams := RequestParams(config, messages, tools, toolChoice, timeout, false);
      sent := requestParams;
      var result := create(requestParams);
      if result.Err? || result.value.None? || |result.value.value.choices| == 0 {
        return ErrorReply, sent;
      }
      var choice := result.value.value.choices[0];
      var message := choice.message;
      var content := if Given(message.content) then Some(Strip(message.content.value)) else None;
      var toolCalls: Option<seq<ToolCall>> := None;
      if message.toolCalls != [] {
        var calls := ConvertToolCalls(message.toolCalls, c);
        toolCalls := Some(calls);
      }
      var finishReason := "error";
      if Given(choice.finishReason) {
        finishReason := choice.finishReason.value;
      } else if toolCalls.Some? && toolCalls.value != [] {
        finishReason := "tool_calls";
      } else if content.Some? && content.value != "" {
        finishReason := "stop";
      }
      r := Reply(content, toolCalls, Some(finishReason));
    }

    /**
     * `chat_with_tools_stream`: the chunks `create` streams are folded; if
     * `create` raises, the only event is the error message, and if the
     * iteration raises, the error message follows the deltas already yielded.
     */
    method ChatWithToolsStream(messages: seq<JSON>, tools: seq<JSON>, toolChoice: Option<string>, timeout: int,
                               create: JSON -> Result<Streamed<Option<Chunk>>>, c: Codec)
      returns (events: seq<StreamEvent>, ghost sent: JSON)
      requires config.providerOptions.Obj?
      ensures sent == RequestParams(config, messages, tools, toolChoice, timeout, true)
      ensures create(sent).Err? ==> events == [Message(ErrorReply)]
      ensures create(sent).Ok? ==> events == OpenedEvents(create(sent).value, c)
    {
      var requestParams := RequestParams(config, messages, tools, toolChoice, timeout, true);
      sent := requestParams;
      var stream := create(requestParams);
      if stream.Err? {
        return [Message(ErrorReply)], sent;
      }
      var chunks := stream.value.chunks;
      var contentParts: seq<string> := [];
      var toolCallsByIndex: Slots<int> := Slots([], map[]);
      var finishReason := "stop";
      events := [];
      var k := 0;
      while k < |chunks|
        invariant 0 <= k <= |chunks|
        invariant Fold(chunks[..k]) == StreamState(contentParts, toolCallsByIndex, finishReason, events)
      {
        FoldNext(chunks, k);
        ghost var before := StreamState(contentParts, toolCallsByIndex, finishReason, events);
        var chunk := chunks[k];
        if chunk.Some? && chunk.value.choices != [] {
          var choice := chunk.value.choices[0];
          var delta := choice.delta;
          if Given(choice.finishReason) {
            finishReason := choice.finishReason.value;
          }
          if Given(delta.content) {
            contentParts := contentParts + [delta.content.value];
            events := events + [ContentDelta(delta.content.value)];
          }
          if delta.toolCalls.Some? && delta.toolCalls.value != [] {
            toolCallsByIndex := AccumulateDeltas(toolCallsByIndex, delta.toolCalls.value);
          }
        }
        assert StreamState(contentParts, toolCallsByIndex, finishReason, events) == Step(before, chunk);
        k := k + 1;
      }
      assert chunks[..k] == chunks;
      if stream.value.raised {
        return events + [Message(ErrorReply)], sent;
      }
      var fullContent := JoinedContent(contentParts);
      var toolCallsList: Option<seq<ToolCall>> := None;
      if toolCallsByIndex.at != map[] {
        var calls := SlotsInOrder(toolCallsByIndex, c);
        toolCallsList := Some(calls);
        finishReason := "tool_calls";
      }
      events := events + [Message(Reply(fullContent, toolCallsList, Some(finishReason)))];
    }
  }

  /** The request: model, messages and timeout, `stream` when streaming, tools with the mapped choice, then the options without `context_size`. */
  function RequestParams(config: GenAIConfig, messages: seq<JSON>, tools: seq<JSON>, toolChoice: Option<string>,
                         timeout: int, stream: bool): JSON
    requires config.providerOptions.Obj?
  {
    Update(BaseParams(config.model, messages, tools, toolChoice, timeout, stream), Del(config.providerOptions, "context_size"))
  }

  /** The request's own keys, before the provider options are merged in. */
  function BaseParams(model: string, messages: seq<JSON>, tools: seq<JSON>, toolChoice: Option<string>,
                      timeout: int, stream: bool): (p: JSON)
    ensures p.Obj? && !Has(p, "context_size")
  {
    var p := Set(Set(Set(Empty, "model", Str(model)), "messages", Arr(messages)), "timeout", Int(timeout));
    var p := if stream then Set(p, "stream", Bool(true)) else p;
    var p := if tools != [] then
               var p := Set(p, "tools", Arr(tools));
               if OpenAIToolChoice(toolChoice).Some? then Set(p, "tool_choice", Str(toolChoice.value)) else p
             else p;
    assert "context_size"[0] !in {'m', 't', 's'};
    p
  }

  /** `context_size` is never sent, and every other provider option is sent as given. */
  lemma RequestDropsContextSize(config: GenAIConfig, messages: seq<JSON>, tools: seq<JSON>, toolChoice: Option<string>,
                                timeout: int, stream: bool)
    requires config.providerOptions.Obj?
    ensures var p := RequestParams(config, messages, tools, toolChoice, timeout, stream);
      && !Has(p, "context_size")
      && forall k :: k != "context_size" && Has(config.providerOptions, k) ==> Get(p, k) == Get(config.providerOptions, k)
  {
    var opts := Del(config.providerOptions, "context_size");
    assert forall k :: Has(opts, k) <==> k != "context_size" && Has(config.providerOptions, k);
    assert forall k :: Has(opts, k) ==> Get(opts, k) == Get(config.providerOptions, k);
  }

  /** One SDK tool call: arguments decoded, `{}` when they do not decode. */
  function ConvertToolCall(tc: SdkToolCall, c: Codec): ToolCall {
    ToolCall(Str(tc.id), Str(tc.name), match c.loads(tc.arguments) case Some(v) => v case None => Empty)
  }

  /** The SDK tool calls converted one by one, in order. */
  function ConvertedCalls(calls: seq<SdkToolCall>, c: Codec): (r: seq<ToolCall>)
    ensures |r| == |calls|
  {
    if calls == [] then [] else ConvertedCalls(calls[..|calls| - 1], c) + [ConvertToolCall(calls[|calls| - 1], c)]
  }

  /** The loop in `chat_with_tools` that converts the message's tool calls. */
  method ConvertToolCalls(calls: seq<SdkToolCall>, c: Codec) returns (r: seq<ToolCall>)
    ensures r == ConvertedCalls(calls, c)
  {
    r := [];
    var i := 0;
    while i < |calls|
      invariant 0 <= i <= |calls|
      invariant r == ConvertedCalls(calls[..i], c)
    {
      var tc := calls[i];
      var arguments := match c.loads(tc.arguments) case Some(v) => v case None => Empty;
      assert calls[..i + 1][..i] == calls[..i];
      r := r + [ToolCall(Str(tc.id), Str(tc.name), arguments)];
      i := i + 1;
    }
    assert calls[..i] == calls;
  }

  /**
   * Each converted call carries the SDK call's id and name, in order, and
   * arguments that do not decode become an empty dict.
   */
  lemma {:induction false} ConvertedCallsEach(calls: seq<SdkToolCall>, c: Codec)
    ensures forall i :: 0 <= i < |calls| ==>
      && ConvertedCalls(calls, c)[i].id == Str(calls[i].id) && ConvertedCalls(calls, c)[i].name == Str(calls[i].name)
      && (c.loads(calls[i].arguments).None? ==> ConvertedCalls(calls, c)[i].arguments == Empty)
      && (c.loads(calls[i].arguments).Some? ==> ConvertedCalls(calls, c)[i].arguments == c.loads(calls[i].arguments).value)
  {
    if calls != [] {
      ConvertedCallsEach(calls[..|calls| - 1], c);
    }
  }

  /** The reply `chat_with_tools` builds from what `create` returned. */
  function CompletionReply(result: Option<Completion>, c: Codec): Reply {
    if result.None? || result.value.choices == [] then ErrorReply
    else
      var choice := result.value.choices[0];
      var content := if Given(choice.message.content) then Some(Strip(choice.message.content.value)) else None;
      var calls := if choice.message.toolCalls != [] then Some(ConvertedCalls(choice.message.toolCalls, c)) else None;
      Reply(content, calls, Some(if Given(choice.finishReason) then choice.finishReason.value
                                 else DerivedFinishReason(calls.Some?, content.Some? && content.value != "")))
  }

  /**
   * No result or no choices gives the error reply. Otherwise content is
   * stripped and None only when absent or empty, there are calls exactly
   * when the message lists some, and the finish reason is the provider's
   * own when given, else "tool_calls", "stop" or "error".
   */
  lemma CompletionReplyCases(result: Option<Completion>, c: Codec)
    ensures result.None? || result.value.choices == [] ==> CompletionReply(result, c) == ErrorReply
    ensures result.Some? && result.value.choices != [] ==>
      var choice := result.value.choices[0];
      var r := CompletionReply(result, c);
      && (r.content.None? <==> !Given(choice.message.content))
      && (r.content.Some? ==> r.content.value == Strip(choice.message.content.value))
      && (r.toolCalls.Some? <==> choice.message.toolCalls != [])
      && (Given(choice.finishReason) ==> r.finishReason == choice.finishReason)
      && (!Given(choice.finishReason) && choice.message.toolCalls != [] ==> r.finishReason == Some("tool_calls"))
      && (!Given(choice.finishReason) && choice.message.toolCalls == [] ==>
            r.finishReason == Some(if r.content.Some? && r.content.value != "" then "stop" else "error"))
  {
  }

  // ---------------------------------------------------------------------
  // the stream

  /** Everything the stream has gathered so far. */
  datatype StreamState = StreamState(parts: seq<string>, slots: Slots<int>, finishReason: string, events: seq<StreamEvent>)

  /** One fragment into its slot: a truthy id or function name replaces the slot's, truthy argument text is appended. */
  function AccumulateDelta(slots: Slots<int>, tc: ToolCallDelta): Slots<int> {
    var fn := tc.fn;
    var slot := if tc.index in slots.at then slots.at[tc.index]
                else Slot(Str(if Given(tc.id) then tc.id.value else ""),
                          Str(if fn.Some? && Given(fn.value.name) then fn.value.name.value else ""), "");
    var id := if Given(tc.id) then Str(tc.id.value) else slot.id;
    var name := if fn.Some? && Given(fn.value.name) then Str(fn.value.name.value) else slot.name;
    var arguments := if fn.Some? && Given(fn.value.arguments) then slot.arguments + fn.value.arguments.value else slot.arguments;
    PutSlot(slots, tc.index, Slot(id, name, arguments))
  }

  /** The fragments of one delta, in order. */
  function AccumulateAll(slots: Slots<int>, tcs: seq<ToolCallDelta>): Slots<int> {
    if tcs == [] then slots else AccumulateDelta(AccumulateAll(slots, tcs[..|tcs| - 1]), tcs[|tcs| - 1])
  }

  /** One fragment puts its merged slot under its index. */
  lemma DeltaPut(slots: Slots<int>, tc: ToolCallDelta)
    ensures var merged := AccumulateDelta(slots, tc);
            tc.index in merged.at && merged == PutSlot(slots, tc.index, merged.at[tc.index])
  {
  }

  /** The fragments up to `j`, then fragment `j`. */
  lemma AccumulateNext(slots: Slots<int>, tcs: seq<ToolCallDelta>, j: nat, next: Slots<int>)
    requires j < |tcs| && next == AccumulateDelta(AccumulateAll(slots, tcs[..j]), tcs[j])
    ensures next == AccumulateAll(slots, tcs[..j + 1])
  {
    assert tcs[..j + 1][..j] == tcs[..j];
  }

  /** The loop over one delta's tool-call fragments. */
  method AccumulateDeltas(slots: Slots<int>, tcs: seq<ToolCallDelta>) returns (r: Slots<int>)
    ensures r == AccumulateAll(slots, tcs)
  {
    r := slots;
    var j := 0;
    while j < |tcs|
      invariant 0 <= j <= |tcs|
      invariant r == AccumulateAll(slots, tcs[..j])
    {
      var tc := tcs[j];
      var fn := tc.fn;
      ghost var before := r;
      if tc.index !in r.at {
        var newSlot := Slot(Str(if Given(tc.id) then tc.id.value else ""),
                           Str(if fn.Some? && Given(fn.value.name) then fn.value.name.value else ""), "");
        r := PutSlot(r, tc.index, newSlot);
        PutSlotTwice(before, tc.index, newSlot, AccumulateDelta(before, tc).at[tc.index]);
      }
      var t := r.at[tc.index];
      assert t == if tc.index in before.at then before.at[tc.index]
                  else Slot(Str(if Given(tc.id) then tc.id.value else ""),
                            Str(if fn.Some? && Given(fn.value.name) then fn.value.name.value else ""), "");
      if Given(tc.id) {
        t := t.(id := Str(tc.id.value));
      }
      if fn.Some? && Given(fn.value.name) {
        t := t.(name := Str(fn.value.name.value));
      }
      if fn.Some? && Given(fn.value.arguments) {
        t := t.(arguments := t.arguments + fn.value.arguments.value);
      }
      assert t == AccumulateDelta(before, tc).at[tc.index];
      DeltaPut(before, tc);
      AccumulateNext(slots, tcs, j, PutSlot(r, tc.index, t));
      r := PutSlot(r, tc.index, t);
      j := j + 1;
    }
    assert tcs[..j] == tcs;
  }

  /** One chunk: the finish reason, the content delta, then the tool-call fragments. */
  function Step(st: StreamState, chunk: Option<Chunk>): StreamState {
    if chunk.None? || chunk.value.choices == [] then st
    else
      var choice := chunk.value.choices[0];
      var delta := choice.delta;
      var finishReason := if Given(choice.finishReason) then choice.finishReason.value else st.finishReason;
      var parts := if Given(delta.content) then st.parts + [delta.content.value] else st.parts;
      var events := if Given(delta.content) then st.events + [ContentDelta(delta.content.value)] else st.events;
      var slots := if delta.toolCalls.Some? then AccumulateAll(st.slots, delta.toolCalls.value) else st.slots;
      StreamState(parts, slots, finishReason, events)
  }

  /** The chunks folded in order from the empty state. */
  function Fold(chunks: seq<Option<Chunk>>): StreamState {
    if chunks == [] then StreamState([], Slots([], map[]), "stop", [])
    else Step(Fold(chunks[..|chunks| - 1]), chunks[|chunks| - 1])
  }

  lemma FoldNext(chunks: seq<Option<Chunk>>, k: nat)
    requires k < |chunks|
    ensures Fold(chunks[..k + 1]) == Step(Fold(chunks[..k]), chunks[k])
  {
    assert chunks[..k + 1][..k] == chunks[..k];
  }

  /** The final message of a stream that ran to its end. */
  function FinalMessage(st: StreamState, c: Codec): Reply {
    if st.slots.at != map[] then Reply(JoinedContent(st.parts), Some(CallsAt(st.slots, st.slots.order, c)), Some("tool_calls"))
    else Reply(JoinedContent(st.parts), None, Some(st.finishReason))
  }

  /** The specification of a stream that `create` opened. */
  function StreamEvents(chunks: seq<Option<Chunk>>, c: Codec): seq<StreamEvent> {
    var st := Fold(chunks);
    st.events + [Message(FinalMessage(st, c))]
  }

  /**
   * An opened stream: its events, or, when iterating it raised, the deltas
   * yielded before the raise followed by the error message.
   */
  function OpenedEvents(s: Streamed<Option<Chunk>>, c: Codec): seq<StreamEvent> {
    if s.raised then Fold(s.chunks).events + [Message(ErrorReply)] else StreamEvents(s.chunks, c)
  }

  /**
   * A stream that raises part-way still ends with one message, the error
   * reply, after exactly the content deltas gathered before the raise.
   */
  lemma RaisedStreamShape(s: Streamed<Option<Chunk>>, c: Codec)
    requires s.raised
    ensures var events := OpenedEvents(s, c);
      var st := Fold(s.chunks);
      && EndsWithMessage(events)
      && events[|events| - 1] == Message(ErrorReply)
      && events[..|events| - 1] == st.events
      && |st.parts| == |events| - 1
      && (forall i :: 0 <= i < |events| - 1 ==> events[i] == ContentDelta(st.parts[i]))
  {
    FoldInvariant(s.chunks);
    var events := OpenedEvents(s, c);
    var st := Fold(s.chunks);
    assert events[..|events| - 1] == st.events;
    forall i | 0 <= i < |events| - 1 ensures events[i] == ContentDelta(st.parts[i]) {
      assert events[i] == st.events[i];
    }
  }

  /** The deltas yielded are exactly the content parts gathered, in arrival order; the slots stay well formed. */
  lemma {:induction false} FoldInvariant(chunks: seq<Option<Chunk>>)
    ensures var st := Fold(chunks);
      && |st.events| == |st.parts|
      && (forall i :: 0 <= i < |st.parts| ==> st.events[i] == ContentDelta(st.parts[i]))
      && SlotsValid(st.slots)
  {
    if chunks != [] {
      var front := chunks[..|chunks| - 1];
      FoldInvariant(front);
      var chunk := chunks[|chunks| - 1];
      if chunk.Some? && chunk.value.choices != [] && chunk.value.choices[0].delta.toolCalls.Some? {
        AccumulateKeepsSlots(Fold(front).slots, chunk.value.choices[0].delta.toolCalls.value);
      }
    }
  }

  lemma {:induction false} AccumulateKeepsSlots(slots: Slots<int>, tcs: seq<ToolCallDelta>)
    requires SlotsValid(slots)
    ensures SlotsValid(AccumulateAll(slots, tcs))
  {
    if tcs != [] {
      var front := AccumulateAll(slots, tcs[..|tcs| - 1]);
      AccumulateKeepsSlots(slots, tcs[..|tcs| - 1]);
      forall k: int, slot: Slot ensures SlotsValid(PutSlot(front, k, slot)) {
        PutSlotKeepsValid(front, k, slot);
      }
    }
  }

  /**
   * A fragment for index `idx` appends its argument text to that slot,
   * replaces the id and name only when it supplies them, opens a new slot
   * at the end of the order, and leaves every other slot alone.
   */
  lemma DeltaAccumulates(slots: Slots<int>, tc: ToolCallDelta)
    ensures var s := AccumulateDelta(slots, tc);
      var idx := tc.index;
      var fn := tc.fn;
      && idx in s.at && s.at.Keys == slots.at.Keys + {idx}
      && (idx in slots.at ==> s.order == slots.order)
      && (idx !in slots.at ==> s.order == slots.order + [idx])
      && (forall j :: j in slots.at && j != idx ==> s.at[j] == slots.at[j])
      && (idx in slots.at ==> s.at[idx].arguments == slots.at[idx].arguments +
                                (if fn.Some? && Given(fn.value.arguments) then fn.value.arguments.value else ""))
      && (Given(tc.id) ==> s.at[idx].id == Str(tc.id.value))
      && (idx in slots.at && !Given(tc.id) ==> s.at[idx].id == slots.at[idx].id)
      && (fn.Some? && Given(fn.value.name) ==> s.at[idx].name == Str(fn.value.name.value))
  {
  }

  /**
   * Content deltas come first, one per non-empty content piece in arrival
   * order, then the single final message; with any slot its calls are in
   * first-seen order, a call whose text does not decode keeps the raw
   * string, and the finish reason is "tool_calls".
   */
  lemma StreamShape(chunks: seq<Option<Chunk>>, c: Codec)
    ensures var events := StreamEvents(chunks, c);
      var st := Fold(chunks);
      && EndsWithMessage(events)
      && events[..|events| - 1] == st.events
      && (st.slots.at != map[] ==> events[|events| - 1].reply.finishReason == Some("tool_calls"))
      && (st.slots.at != map[] ==> events[|events| - 1].reply.toolCalls.Some? && |events[|events| - 1].reply.toolCalls.value| == |st.slots.order|)
      && (st.slots.at == map[] ==> events[|events| - 1].reply.toolCalls.None?)
  {
    FoldInvariant(chunks);
    var events := StreamEvents(chunks, c);
    var st := Fold(chunks);
    assert events[..|events| - 1] == st.events;
    forall i | 0 <= i < |events| - 1 ensures events[i].ContentDelta? {
      assert events[i] == st.events[i];
    }
  }
}
