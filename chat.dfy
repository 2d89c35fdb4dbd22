/**
 * The `/chat/completion` tool-calling loop. The conversation is the list of
 * message dicts sent to the provider; the provider is a function of that
 * conversation returning the normalized `{content, tool_calls,
 * finish_reason}` reply, and a tool is a function from (name, arguments) to a
 * returned value or a raised exception.
 */
module Chat {
  import opened Wrappers
  import opened Json
  import opened Text
  import opened Seqs
  import GenaiUtils
  import opened ChatTools

  type ToolCall = GenaiUtils.ToolCall

  /** A caller message (`ChatMessage` of the request body). */
  datatype ChatMessage = ChatMessage(role: string, content: string, toolCallId: Option<string>, name: Option<string>)

  /** `ChatCompletionRequest`; `includeLiveImage` is the camera name, when given. */
  datatype ChatCompletionRequest =
    ChatCompletionRequest(messages: seq<ChatMessage>, maxToolIterations: int, includeLiveImage: Option<string>)

  const DefaultMaxToolIterations := 5

  /** The request model's bounds on `max_tool_iterations`. */
  predicate ValidRequest(body: ChatCompletionRequest) {
    1 <= body.maxToolIterations <= 10
  }

  datatype ChatMessageResponse = ChatMessageResponse(role: string, content: Option<string>, toolCalls: Option<seq<ToolCall>>)
  datatype ChatCompletionResponse =
    ChatCompletionResponse(message: ChatMessageResponse, finishReason: string, toolIterations: int)

  /**
   * The endpoint's answers: 400 when no GenAI client is bound, 500 with the
   * generic error message, or a completion.
   */
  datatype Outcome = NotConfigured | Failed | Completed(response: ChatCompletionResponse)

  const NotConfiguredMessage := "GenAI is not configured. Please configure a GenAI provider in your Frigate config."
  const GenericErrorMessage := "An error occurred while processing your request."
  const MaxIterationsMessage :=
    "I reached the maximum number of tool call iterations. Please try rephrasing your question."

  type Reply = GenaiUtils.Reply

  type Provider = seq<JSON> -> Reply

  type Executor = (JSON, JSON) -> ToolOutcome

  /** `response.get("tool_calls")` is truthy. */
  predicate HasCalls(r: Reply) {
    r.toolCalls.Some? && r.toolCalls.value != []
  }

  function ContentValue(content: Option<string>): JSON {
    match content
    case None => Null
    case Some(s) => Str(s)
  }

  /** The assistant message appended for every reply that is not an error. */
  function AssistantMessage(r: Reply, c: Codec): JSON {
    var base := Set(Set(Empty, "role", Str("assistant")), "content", ContentValue(r.content));
    if HasCalls(r) then
      var calls := r.toolCalls.value;
      Set(base, "tool_calls", Arr(seq(|calls|, i requires 0 <= i < |calls| => WireCall(calls[i], c))))
    else base
  }

  /** A tool call in the OpenAI wire shape: its id, the type "function", and the name with the JSON-encoded arguments. */
  function WireCall(tc: ToolCall, c: Codec): JSON {
    var fn := Set(Set(Empty, "name", tc.name), "arguments", Str(c.dumps(tc.arguments)));
    Set(Set(Set(Empty, "id", tc.id), "type", Str("function")), "function", fn)
  }

  /**
   * The tool message content: a dict result is JSON-encoded, a string is used
   * as is, anything else goes through `str()` (`repr`), and an exception
   * becomes an encoded dict whose "error" reports the failed execution.
   */
  function ToolResultContent(o: ToolOutcome, c: Codec, repr: JSON -> string): string {
    match o
    case Raised(e) => c.dumps(ErrorDict("Tool execution failed: " + e))
    case Returned(v) =>
      if v.Obj? then c.dumps(v) else if v.Str? then v.s else repr(v)
  }

  function ToolMessage(call: ToolCall, exec: Executor, c: Codec, repr: JSON -> string): JSON {
    Set(Set(Set(Empty, "role", Str("tool")), "tool_call_id", call.id),
        "content", Str(ToolResultContent(exec(call.name, call.arguments), c, repr)))
  }

  /**
   * The assistant message carries role "assistant" and the reply's content
   * (null when absent), and has a `tool_calls` key exactly when the reply
   * has tool calls.
   */
  lemma AssistantMessageShape(r: Reply, c: Codec)
    ensures var m := AssistantMessage(r, c);
      && Get(m, "role") == Some(Str("assistant")) && Get(m, "content") == Some(ContentValue(r.content))
      && (Has(m, "tool_calls") <==> HasCalls(r))
  {
  }

  /** A tool message answers its call by id with the tool's result content. */
  lemma ToolMessageShape(call: ToolCall, exec: Executor, c: Codec, repr: JSON -> string)
    ensures var m := ToolMessage(call, exec, c, repr);
      && Get(m, "role") == Some(Str("tool")) && Get(m, "tool_call_id") == Some(call.id)
      && Get(m, "content") == Some(Str(ToolResultContent(exec(call.name, call.arguments), c, repr)))
  {
  }

  /** The `tool_results` of one turn: one message per call, in call order. */
  function ToolMessages(calls: seq<ToolCall>, exec: Executor, c: Codec, repr: JSON -> string): seq<JSON> {
    Map(call => ToolMessage(call, exec, c, repr), calls)
  }

  /** Everything one tool turn appends: the assistant message, then the tool results. */
  function Turn(r: Reply, exec: Executor, c: Codec, repr: JSON -> string): seq<JSON>
    requires HasCalls(r)
  {
    [AssistantMessage(r, c)] + ToolMessages(r.toolCalls.value, exec, c, repr)
  }

  /**
   * `tail` is exactly `n` turns on top of `base`, where `step` gives the
   * messages one turn appends to a conversation (None: the loop stops there).
   */
  ghost predicate Turns(step: seq<JSON> -> Option<seq<JSON>>, base: seq<JSON>, tail: seq<JSON>, n: nat)
    decreases n
  {
    if n == 0 then tail == []
    else
      && step(base).Some?
      && var turn := step(base).value;
         |turn| <= |tail| && tail[..|turn|] == turn && Turns(step, base + turn, tail[|turn|..], n - 1)
  }

  lemma {:induction false} TurnsExtend(step: seq<JSON> -> Option<seq<JSON>>, base: seq<JSON>, tail: seq<JSON>, n: nat)
    requires Turns(step, base, tail, n) && step(base + tail).Some?
    ensures Turns(step, base, tail + step(base + tail).value, n + 1)
    decreases n
  {
    var last := step(base + tail).value;
    if n == 0 {
      assert base + tail == base;
      assert (tail + last)[..|last|] == last;
      assert (tail + last)[|last|..] == [];
    } else {
      var first := step(base).value;
      var rest := tail[|first|..];
      assert tail == first + rest;
      assert (base + first) + rest == base + tail;
      TurnsExtend(step, base + first, rest, n - 1);
      assert (tail + last)[..|first|] == first;
      assert (tail + last)[|first|..] == rest + last;
    }
  }

  /** One more turn on top of a conversation that starts with `init` and then has `n` turns. */
  lemma TurnsAppend(step: seq<JSON> -> Option<seq<JSON>>, init: seq<JSON>, before: seq<JSON>, n: nat)
    requires |init| <= |before| && before[..|init|] == init
    requires Turns(step, init, before[|init|..], n) && step(before).Some?
    ensures var after := before + step(before).value;
            |init| <= |after| && after[..|init|] == init && Turns(step, init, after[|init|..], n + 1)
  {
    var turn := step(before).value;
    assert init + before[|init|..] == before;
    TurnsExtend(step, init, before[|init|..], n);
    assert (before + turn)[|init|..] == before[|init|..] + turn;
  }

  /**
   * A tool turn of the loop: the reply to the conversation so far is neither
   * an error nor a final answer, and the turn appends `turn(reply)`.
   */
  function Step(p: Provider, turn: Reply -> seq<JSON>): seq<JSON> -> Option<seq<JSON>> {
    (conversation: seq<JSON>) =>
      var r := p(conversation);
      if r.finishReason == Some("error") || !HasCalls(r) then None else Some(turn(r))
  }

  function FinalResponse(r: Reply, iterations: int): ChatCompletionResponse {
    ChatCompletionResponse(ChatMessageResponse("assistant", r.content, None), r.finishReason.GetOr("stop"), iterations)
  }

  function MaxIterationsResponse(iterations: int): ChatCompletionResponse {
    ChatCompletionResponse(ChatMessageResponse("assistant", Some(MaxIterationsMessage), None), "length", iterations)
  }

  /**
   * Where the loop ends: the answer, the final conversation,
   * `tool_iterations` and how many times the provider was called.
   */
  datatype LoopResult = LoopResult(outcome: Outcome, conversation: seq<JSON>, iterations: nat, providerCalls: nat)

  /**
   * The loop from a given conversation, iteration count and number of
   * provider calls so far, with the messages of a tool turn (`turn`) and the
   * closing assistant message (`closing`) left as parameters: an error reply
   * ends it with the generic error, a reply without tool calls ends it with
   * that reply, and a reply with tool calls appends its turn and goes round
   * again until `maxIterations` is reached.
   */
  function LoopWith(p: Provider, turn: Reply -> seq<JSON>, closing: Reply -> JSON,
                    conversation: seq<JSON>, iterations: nat, calls: nat, maxIterations: int): LoopResult
    decreases maxIterations - iterations
  {
    if iterations >= maxIterations then
      LoopResult(Completed(MaxIterationsResponse(iterations)), conversation, iterations, calls)
    else
      var r := p(conversation);
      if r.finishReason == Some("error") then LoopResult(Failed, conversation, iterations, calls + 1)
      else if !HasCalls(r) then
        LoopResult(Completed(FinalResponse(r, iterations)), conversation + [closing(r)], iterations, calls + 1)
      else LoopWith(p, turn, closing, conversation + turn(r), iterations + 1, calls + 1, maxIterations)
  }

  /**
   * Starting with `n` tool turns (and as many provider calls) on top of
   * `init`: the loop stops within the bound, calls the provider at most
   * `maxIterations` times in all, keeps `init` as the conversation's prefix
   * and never answers "not configured".
   */
  lemma {:induction false} LoopWithBounds(p: Provider, turn: Reply -> seq<JSON>, closing: Reply -> JSON,
                                          init: seq<JSON>, conversation: seq<JSON>, n: nat, maxIterations: int)
    requires n <= maxIterations
    requires |init| <= |conversation| && conversation[..|init|] == init
    ensures var res := LoopWith(p, turn, closing, conversation, n, n, maxIterations);
      && n <= res.iterations <= maxIterations && res.providerCalls <= maxIterations
      && |init| <= |res.conversation| && res.conversation[..|init|] == init
      && !res.outcome.NotConfigured?
    decreases maxIterations - n
  {
    if n < maxIterations {
      var r := p(conversation);
      if r.finishReason != Some("error") {
        if HasCalls(r) {
          var next := conversation + turn(r);
          assert next[..|init|] == init;
          LoopWithBounds(p, turn, closing, init, next, n + 1, maxIterations);
        } else {
          assert (conversation + [closing(r)])[..|init|] == init;
        }
      }
    }
  }

  /**
   * An "error" reply ends the loop before the bound, right after the
   * provider call that returned it, with no message added for that turn and
   * after whole tool turns only.
   */
  lemma {:induction false} LoopWithFailed(p: Provider, turn: Reply -> seq<JSON>, closing: Reply -> JSON,
                                          init: seq<JSON>, conversation: seq<JSON>, n: nat, maxIterations: int)
    requires |init| <= |conversation| && conversation[..|init|] == init
    requires Turns(Step(p, turn), init, conversation[|init|..], n)
    ensures var res := LoopWith(p, turn, closing, conversation, n, n, maxIterations);
      res.outcome.Failed? ==>
        && res.iterations < maxIterations && res.providerCalls == res.iterations + 1
        && |init| <= |res.conversation| && res.conversation[..|init|] == init
        && Turns(Step(p, turn), init, res.conversation[|init|..], res.iterations)
        && p(res.conversation).finishReason == Some("error")
    decreases maxIterations - n
  {
    var r := p(conversation);
    if n < maxIterations && r.finishReason != Some("error") && HasCalls(r) {
      TurnsAppend(Step(p, turn), init, conversation, n);
      LoopWithFailed(p, turn, closing, init, conversation + turn(r), n + 1, maxIterations);
    }
  }

  /**
   * Reaching the bound answers with the fixed message, finish reason
   * "length" and `tool_iterations == maxIterations`, after exactly
   * `maxIterations` provider calls, each of which asked for tools.
   */
  lemma {:induction false} LoopWithAtBound(p: Provider, turn: Reply -> seq<JSON>, closing: Reply -> JSON,
                                           init: seq<JSON>, conversation: seq<JSON>, n: nat, maxIterations: int)
    requires n <= maxIterations
    requires |init| <= |conversation| && conversation[..|init|] == init
    requires Turns(Step(p, turn), init, conversation[|init|..], n)
    ensures var res := LoopWith(p, turn, closing, conversation, n, n, maxIterations);
      res.iterations == maxIterations ==>
        && res.outcome == Completed(MaxIterationsResponse(maxIterations))
        && res.providerCalls == maxIterations
        && |init| <= |res.conversation| && res.conversation[..|init|] == init
        && Turns(Step(p, turn), init, res.conversation[|init|..], maxIterations)
    decreases maxIterations - n
  {
    var r := p(conversation);
    if n < maxIterations && r.finishReason != Some("error") && HasCalls(r) {
      TurnsAppend(Step(p, turn), init, conversation, n);
      LoopWithAtBound(p, turn, closing, init, conversation + turn(r), n + 1, maxIterations);
    }
  }

  /**
   * A reply without tool calls before the bound ends the loop: the
   * conversation gains one closing message built from that reply, and the
   * answer carries its content, its finish reason (default "stop") and the
   * number of tool turns completed before it.
   */
  lemma {:induction false} LoopWithFinal(p: Provider, turn: Reply -> seq<JSON>, closing: Reply -> JSON,
                                         init: seq<JSON>, conversation: seq<JSON>, n: nat, maxIterations: int)
    requires |init| <= |conversation| && conversation[..|init|] == init
    requires Turns(Step(p, turn), init, conversation[|init|..], n)
    ensures var res := LoopWith(p, turn, closing, conversation, n, n, maxIterations);
      res.outcome.Completed? && res.iterations < maxIterations ==>
        && res.providerCalls == res.iterations + 1
        && |init| < |res.conversation| && res.conversation[..|init|] == init
        && var before := res.conversation[..|res.conversation| - 1];
           && Turns(Step(p, turn), init, before[|init|..], res.iterations)
           && p(before).finishReason != Some("error") && !HasCalls(p(before))
           && res.conversation[|res.conversation| - 1] == closing(p(before))
           && res.outcome.response == FinalResponse(p(before), res.iterations)
    decreases maxIterations - n
  {
    var res := LoopWith(p, turn, closing, conversation, n, n, maxIterations);
    if n < maxIterations {
      var r := p(conversation);
      if r.finishReason == Some("error") {
        assert res.outcome == Failed;
      } else if HasCalls(r) {
        assert res == LoopWith(p, turn, closing, conversation + turn(r), n + 1, n + 1, maxIterations);
        TurnsAppend(Step(p, turn), init, conversation, n);
        LoopWithFinal(p, turn, closing, init, conversation + turn(r), n + 1, maxIterations);
      } else {
        var after := conversation + [closing(r)];
        assert res == LoopResult(Completed(FinalResponse(r, n)), after, n, n + 1);
        assert after[..|after| - 1] == conversation;
        assert after[..|init|] == init;
      }
    }
  }

  /** What a tool turn appends in `chat_completion`: the assistant message, then the tool results. */
  function TurnOf(exec: Executor, c: Codec, repr: JSON -> string): Reply -> seq<JSON> {
    r => if HasCalls(r) then Turn(r, exec, c, repr) else []
  }

  function ClosingOf(c: Codec): Reply -> JSON {
    r => AssistantMessage(r, c)
  }

  /**
   * The loop of `chat_completion` from conversation `conversation` after
   * `iterations` tool turns and `calls` provider calls.
   */
  function Loop(p: Provider, exec: Executor, c: Codec, repr: JSON -> string,
                conversation: seq<JSON>, iterations: nat, calls: nat, maxIterations: int): LoopResult
  {
    LoopWith(p, TurnOf(exec, c, repr), ClosingOf(c), conversation, iterations, calls, maxIterations)
  }

  /** `tail` is exactly `n` completed tool turns of the loop on top of `base`. */
  ghost predicate ToolTurns(p: Provider, exec: Executor, c: Codec, repr: JSON -> string,
                            base: seq<JSON>, tail: seq<JSON>, n: nat)
  {
    Turns(Step(p, TurnOf(exec, c, repr)), base, tail, n)
  }

  /** The inner `for tool_call in tool_calls` loop collecting `tool_results`. */
  method ExecuteToolCalls(calls: seq<ToolCall>, exec: Executor, c: Codec, repr: JSON -> string)
    returns (toolResults: seq<JSON>)
    ensures toolResults == ToolMessages(calls, exec, c, repr)
  {
    toolResults := [];
    var k := 0;
    while k < |calls|
      invariant 0 <= k <= |calls|
      invariant toolResults == ToolMessages(calls[..k], exec, c, repr)
    {
      assert calls[..k + 1][..|calls[..k + 1]| - 1] == calls[..k];
      toolResults := toolResults + [ToolMessage(calls[k], exec, c, repr)];
      k := k + 1;
    }
    assert calls[..k] == calls;
  }

  /**
   * The `while tool_iterations < max_iterations` loop of `chat_completion`,
   * from the initial conversation; `providerCalls` counts the calls to
   * `chat_with_tools`.
   */
  method RunToolLoop(init: seq<JSON>, maxIterations: int, p: Provider, exec: Executor, c: Codec, repr: JSON -> string)
    returns (outcome: Outcome, conversation: seq<JSON>, iterations: nat, providerCalls: nat)
    ensures LoopResult(outcome, conversation, iterations, providerCalls) == Loop(p, exec, c, repr, init, 0, 0, maxIterations)
  {
    conversation := init;
    iterations := 0;
    providerCalls := 0;
    while iterations < maxIterations
      invariant Loop(p, exec, c, repr, init, 0, 0, maxIterations)
                == Loop(p, exec, c, repr, conversation, iterations, providerCalls, maxIterations)
      decreases maxIterations - iterations
    {
      var response := p(conversation);
      providerCalls := providerCalls + 1;
      if response.finishReason == Some("error") {
        return Failed, conversation, iterations, providerCalls;
      }
      var assistantMessage := AssistantMessage(response, c);
      if !HasCalls(response) {
        outcome := Completed(FinalResponse(response, iterations));
        conversation := conversation + [assistantMessage];
        return;
      }
      var toolResults := ExecuteToolCalls(response.toolCalls.value, exec, c, repr);
      assert [assistantMessage] + toolResults == TurnOf(exec, c, repr)(response);
      conversation := conversation + ([assistantMessage] + toolResults);
      iterations := iterations + 1;
    }
    outcome := Completed(MaxIterationsResponse(iterations));
  }
}
