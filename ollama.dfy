/**
 * The Ollama adapter. Requests and replies are dicts; `client.show` and
 * `client.chat` are parameters whose `Err` is the exception they raise.
 */
module Ollama {
  import opened Wrappers
  import opened Json
  import opened Text
  import opened GenaiUtils
  import opened ProviderCommon

  /** `LOCAL_OPTIMIZED_OPTIONS`: sampling options suited to local models. */
  const LocalOptions: JSON :=
    Obj(["options"], map["options" := Obj(["temperature", "repeat_penalty", "presence_penalty"],
                                          map["temperature" := Float(0.5), "repeat_penalty" := Float(1.05),
                                              "presence_penalty" := Float(0.3)])])

  /** The `ollama.Client` handle `_init_provider` returns. */
  datatype ApiClient = ApiClient(host: Option<string>, timeout: int)

  /**
   * Whether `client.show(model)` leaves a usable client: it did not raise,
   * and its reply carries no truthy "error".
   */
  predicate ModelAvailable(show: Result<JSON>) {
    show.Ok? && show.value.Obj? && !Truthy(GetOr(show.value, "error", Null))
  }

  /**
   * `get_context_size`: `options.num_ctx` of the configured provider
   * options, 4096 when either level is missing; an "options" value that is
   * not a dict makes `.get` raise.
   */
  function ContextSize(providerOptions: JSON): (r: Result<JSON>)
    requires providerOptions.Obj?
    ensures !Has(providerOptions, "options") ==> r == Ok(Int(4096))
    ensures Has(providerOptions, "options") && !providerOptions.values["options"].Obj? ==> r.Err?
    ensures Has(providerOptions, "options") && providerOptions.values["options"].Obj? ==>
              r == Ok(GetOr(providerOptions.values["options"], "num_ctx", Int(4096)))
  {
    var options := GetOr(providerOptions, "options", Empty);
    if !options.Obj? then Err("AttributeError: options is not a dict")
    else Ok(GetOr(options, "num_ctx", Int(4096)))
  }

  /**
   * The size is read from the configured options, not from the merged ones
   * the client sends; since the local defaults carry no `num_ctx`, both
   * readings agree.
   */
  lemma ContextSizeOnMerged(providerOptions: JSON)
    requires providerOptions.Obj?
    ensures ContextSize(Update(LocalOptions, providerOptions)) == ContextSize(providerOptions)
  {
    var merged := Update(LocalOptions, providerOptions);
    if !Has(providerOptions, "options") {
      assert Get(merged, "options") == Get(LocalOptions, "options");
      assert !Has(LocalOptions.values["options"], "num_ctx");
    } else {
      assert Get(merged, "options") == Get(providerOptions, "options");
    }
  }

  // ---------------------------------------------------------------------
  // the request

  /** One outgoing message: role and content (default ""), then tool_call_id, name and tool_calls when truthy. */
  function RequestMessage(msg: JSON): JSON
    requires msg.Obj?
  {
    var d := Set(Set(Empty, "role", GetOr(msg, "role", Null)), "content", GetOr(msg, "content", Str("")));
    var d := if Truthy(GetOr(msg, "tool_call_id", Null)) then Set(d, "tool_call_id", msg.values["tool_call_id"]) else d;
    var d := if Truthy(GetOr(msg, "name", Null)) then Set(d, "name", msg.values["name"]) else d;
    if Truthy(GetOr(msg, "tool_calls", Null)) then Set(d, "tool_calls", msg.values["tool_calls"]) else d
  }

  /** A key the copy passes on only when the caller's value is truthy. */
  predicate Optional(k: string) {
    k == "tool_call_id" || k == "name" || k == "tool_calls"
  }

  /**
   * The copy always has role (None when absent) and content ("" when
   * absent); it has each optional key exactly when the caller's value is
   * truthy, with that value; and it has no other key.
   */
  lemma RequestMessageFields(msg: JSON)
    requires msg.Obj?
    ensures var d := RequestMessage(msg);
      && Get(d, "role") == Some(GetOr(msg, "role", Null))
      && Get(d, "content") == Some(GetOr(msg, "content", Str("")))
      && (forall k :: Optional(k) ==> (Has(d, k) <==> Truthy(GetOr(msg, k, Null))))
      && (forall k :: Optional(k) && Has(d, k) ==> Get(d, k) == Get(msg, k))
      && (forall k :: Has(d, k) ==> k == "role" || k == "content" || Optional(k))
  {
  }

  /** Every message is a dict, so `msg.get` does not raise. */
  predicate AllDicts(msgs: seq<JSON>) {
    forall i :: 0 <= i < |msgs| ==> msgs[i].Obj?
  }

  /** The copied messages, in order. */
  function RequestMessages(msgs: seq<JSON>): (r: seq<JSON>)
    requires AllDicts(msgs)
    ensures |r| == |msgs|
  {
    if msgs == [] then [] else RequestMessages(msgs[..|msgs| - 1]) + [RequestMessage(msgs[|msgs| - 1])]
  }

  /** The `i`-th outgoing message is the copy of the `i`-th caller message. */
  lemma {:induction false} RequestMessagesEach(msgs: seq<JSON>)
    requires AllDicts(msgs)
    ensures forall i :: 0 <= i < |msgs| ==> RequestMessages(msgs)[i] == RequestMessage(msgs[i])
  {
    if msgs != [] {
      RequestMessagesEach(msgs[..|msgs| - 1]);
    }
  }

  lemma RequestMessagesNext(msgs: seq<JSON>, k: nat)
    requires k < |msgs| && AllDicts(msgs[..k]) && msgs[k].Obj?
    ensures AllDicts(msgs[..k + 1])
    ensures RequestMessages(msgs[..k + 1]) == RequestMessages(msgs[..k]) + [RequestMessage(msgs[k])]
  {
    assert msgs[..k + 1][..k] == msgs[..k];
  }

  /** The copy loop of `chat_with_tools`; None when a message is not a dict. */
  method CopyMessages(messages: seq<JSON>) returns (r: Option<seq<JSON>>)
    ensures r.Some? <==> AllDicts(messages)
    ensures r.Some? ==> r.value == RequestMessages(messages)
  {
    var requestMessages: seq<JSON> := [];
    var i := 0;
    while i < |messages|
      invariant 0 <= i <= |messages|
      invariant AllDicts(messages[..i]) && requestMessages == RequestMessages(messages[..i])
    {
      var msg := messages[i];
      if !msg.Obj? {
        return None;
      }
      var msgDict := Set(Set(Empty, "role", GetOr(msg, "role", Null)), "content", GetOr(msg, "content", Str("")));
      if Truthy(GetOr(msg, "tool_call_id", Null)) {
        msgDict := Set(msgDict, "tool_call_id", msg.values["tool_call_id"]);
      }
      if Truthy(GetOr(msg, "name", Null)) {
        msgDict := Set(msgDict, "name", msg.values["name"]);
      }
      if Truthy(GetOr(msg, "tool_calls", Null)) {
        msgDict := Set(msgDict, "tool_calls", msg.values["tool_calls"]);
      }
      assert msgDict == RequestMessage(msg);
      RequestMessagesNext(messages, i);
      requestMessages := requestMessages + [msgDict];
      i := i + 1;
    }
    assert messages[..i] == messages;
    r := Some(requestMessages);
  }

  /** The `chat` keyword arguments: model and messages, tools with the mapped choice when tools are given, then the provider options. */
  function RequestParams(model: string, messages: seq<JSON>, tools: seq<JSON>, toolChoice: Option<string>,
                         providerOptions: JSON): JSON
    requires providerOptions.Obj?
  {
    var p := Set(Set(Empty, "model", Str(model)), "messages", Arr(messages));
    var p := if tools != [] then
               var p := Set(p, "tools", Arr(tools));
               if OpenAIToolChoice(toolChoice).Some? then Set(p, "tool_choice", Str(toolChoice.value)) else p
             else p;
    Update(p, providerOptions)
  }

  /**
   * The provider options are merged last, so each is sent as given. Apart
   * from them, tools go out only when given, and tool_choice only with
   * tools and only as "none", "auto" or "required".
   */
  lemma RequestParamsFields(model: string, messages: seq<JSON>, tools: seq<JSON>, toolChoice: Option<string>,
                            providerOptions: JSON)
    requires providerOptions.Obj?
    ensures var p := RequestParams(model, messages, tools, toolChoice, providerOptions);
      && (forall k :: Has(providerOptions, k) ==> Get(p, k) == Get(providerOptions, k))
      && (!Has(providerOptions, "model") ==> Get(p, "model") == Some(Str(model)))
      && (!Has(providerOptions, "messages") ==> Get(p, "messages") == Some(Arr(messages)))
      && (!Has(providerOptions, "tools") ==> (Has(p, "tools") <==> tools != []))
      && (!Has(providerOptions, "tool_choice") ==>
            (Has(p, "tool_choice") <==> tools != [] && OpenAIToolChoice(toolChoice).Some?))
      && (!Has(providerOptions, "tool_choice") && Has(p, "tool_choice") ==> Get(p, "tool_choice") == Some(Str(toolChoice.value)))
  {
  }

  // ---------------------------------------------------------------------
  // the reply

  /**
   * One reply tool call, or None when `.get` raises on it (the call or its
   * "function" is not a dict). Arguments default to "{}" and anything that
   * is not a decodable string becomes `{}`.
   */
  function CallOf(tc: JSON, c: Codec): Option<ToolCall> {
    if !tc.Obj? then None
    else
      var fn := GetOr(tc, "function", Empty);
      if !fn.Obj? then None
      else
        var argumentsStr := GetOr(fn, "arguments", Str("{}"));
        var arguments := if argumentsStr.Str? && c.loads(argumentsStr.s).Some? then c.loads(argumentsStr.s).value else Empty;
        Some(ToolCall(GetOr(tc, "id", Str("")), GetOr(fn, "name", Str("")), arguments))
  }

  /**
   * Missing id and name become "". Arguments that are not a string (a dict
   * included) or that do not decode become `{}`, and missing arguments
   * decode as "{}", which `json.loads` reads as `{}`.
   */
  lemma CallOfFallbacks(tc: JSON, fn: JSON, c: Codec)
    requires tc.Obj? && Get(tc, "function") == Some(fn) && fn.Obj?
    ensures CallOf(tc, c).Some?
    ensures CallOf(tc, c).value.id == GetOr(tc, "id", Str(""))
    ensures CallOf(tc, c).value.name == GetOr(fn, "name", Str(""))
    ensures Has(fn, "arguments") && !fn.values["arguments"].Str? ==> CallOf(tc, c).value.arguments == Empty
    ensures Has(fn, "arguments") && fn.values["arguments"].Str? && c.loads(fn.values["arguments"].s).None? ==>
              CallOf(tc, c).value.arguments == Empty
    ensures !Has(fn, "arguments") && LoadsEmptyDict(c) ==> CallOf(tc, c).value.arguments == Empty
  {
  }

  /** Every reply tool call converts without raising. */
  predicate AllCalls(tcs: seq<JSON>, c: Codec) {
    forall i :: 0 <= i < |tcs| ==> CallOf(tcs[i], c).Some?
  }

  /** The converted reply tool calls, in order. */
  function Calls(tcs: seq<JSON>, c: Codec): (r: seq<ToolCall>)
    requires AllCalls(tcs, c)
    ensures |r| == |tcs|
  {
    if tcs == [] then [] else Calls(tcs[..|tcs| - 1], c) + [CallOf(tcs[|tcs| - 1], c).value]
  }

  /** The `i`-th call of the reply is the conversion of the `i`-th raw call. */
  lemma {:induction false} CallsEach(tcs: seq<JSON>, c: Codec)
    requires AllCalls(tcs, c)
    ensures forall i :: 0 <= i < |tcs| ==> Calls(tcs, c)[i] == CallOf(tcs[i], c).value
  {
    if tcs != [] {
      CallsEach(tcs[..|tcs| - 1], c);
    }
  }

  /** The tool-call loop of `chat_with_tools`; None when a call makes `.get` raise. */
  method ConvertCalls(tcs: seq<JSON>, c: Codec) returns (r: Option<seq<ToolCall>>)
    ensures r.Some? <==> AllCalls(tcs, c)
    ensures r.Some? ==> r.value == Calls(tcs, c)
  {
    var toolCalls: seq<ToolCall> := [];
    var i := 0;
    while i < |tcs|
      invariant 0 <= i <= |tcs|
      invariant AllCalls(tcs[..i], c) && toolCalls == Calls(tcs[..i], c)
    {
      var toolCall := tcs[i];
      if !toolCall.Obj? {
        return None;
      }
      var functionData := GetOr(toolCall, "function", Empty);
      if !functionData.Obj? {
        return None;
      }
      var argumentsStr := GetOr(functionData, "arguments", Str("{}"));
      var arguments := Empty;
      if argumentsStr.Str? {
        var parsed := c.loads(argumentsStr.s);
        if parsed.Some? {
          arguments := parsed.value;
        }
      }
      assert CallOf(toolCall, c) == Some(ToolCall(GetOr(toolCall, "id", Str("")), GetOr(functionData, "name", Str("")), arguments));
      assert tcs[..i + 1][..i] == tcs[..i];
      toolCalls := toolCalls + [ToolCall(GetOr(toolCall, "id", Str("")), GetOr(functionData, "name", Str("")), arguments)];
      i := i + 1;
    }
    assert tcs[..i] == tcs;
    r := Some(toolCalls);
  }

  /** The message content stripped when truthy; a truthy non-string cannot be stripped and raises (None here). */
  function ContentOf(message: JSON): Option<Option<string>>
    requires message.Obj?
  {
    var content := GetOr(message, "content", Null);
    if !Truthy(content) then Some(None)
    else if content.Str? then Some(Some(Strip(content.s)))
    else None
  }

  /**
   * Reading the response raises nowhere: it is a truthy dict with a dict
   * "message", whose content is falsy or a string, and whose tool calls
   * are falsy or a list of convertible calls.
   */
  predicate Readable(response: JSON, c: Codec) {
    && Truthy(response) && Has(response, "message") && response.values["message"].Obj?
    && ContentOf(response.values["message"]).Some?
    && var raw := GetOr(response.values["message"], "tool_calls", Null);
       !Truthy(raw) || (raw.Arr? && AllCalls(raw.items, c))
  }

  /**
   * The reply `chat_with_tools` builds from what `chat` returned. Every way
   * reading the response raises gives the error reply, as the catch-all
   * handler does. The "done" flag is never consulted.
   */
  function ResponseReply(response: JSON, c: Codec): Reply {
    if !Readable(response, c) then ErrorReply
    else
      var message := response.values["message"];
      var content := ContentOf(message).value;
      var raw := GetOr(message, "tool_calls", Null);
      var calls := if Truthy(raw) then Some(Calls(raw.items, c)) else None;
      Reply(content, calls, Some(DerivedFinishReason(calls.Some?, content.Some? && content.value != "")))
  }

  /**
   * No response or no "message" gives the error reply. Otherwise content
   * is the stripped text, None when falsy; there are calls exactly when the
   * message lists some; and the finish reason is "tool_calls" with calls,
   * else "stop" with non-blank content, else "error".
   */
  lemma ResponseReplyCases(response: JSON, c: Codec)
    ensures !Truthy(response) || !Has(response, "message") ==> ResponseReply(response, c) == ErrorReply
    ensures !Readable(response, c) ==> ResponseReply(response, c) == ErrorReply
    ensures Readable(response, c) ==>
        var r := ResponseReply(response, c);
        var message := response.values["message"];
        var content := GetOr(message, "content", Null);
        && (r.content.None? <==> !Truthy(content))
        && (r.content.Some? ==> content.Str? && r.content.value == Strip(content.s))
        && (r.toolCalls.Some? <==> Truthy(GetOr(message, "tool_calls", Null)))
        && (r.toolCalls.Some? ==> r.toolCalls.value != [] && r.finishReason == Some("tool_calls"))
        && (r.toolCalls.None? ==> r.finishReason == Some(if r.content.Some? && r.content.value != "" then "stop" else "error"))
  {
    if Readable(response, c) {
      var message := response.values["message"];
      var raw := GetOr(message, "tool_calls", Null);
      if Truthy(raw) {
        assert |Calls(raw.items, c)| == |raw.items| > 0;
      }
    }
  }

  /** Whatever "done" says, the reply is the same. */
  lemma DoneIgnored(response: JSON, done: JSON, c: Codec)
    requires response.Obj? && Has(response, "message")
    ensures ResponseReply(Set(response, "done", done), c) == ResponseReply(response, c)
  {
    var withDone := Set(response, "done", done);
    assert withDone.values["message"] == response.values["message"];
    assert Truthy(withDone) && Truthy(response);
  }

  /** `OllamaClient`: the merged provider options, and the client when the model is available. */
  class OllamaClient {
    const config: GenAIConfig
    const providerOptions: JSON
    const provider: Option<ApiClient>

    /**
     * `_init_provider`: the local defaults overridden by the configured
     * options; `show` is what `client.show(model)` returned or raised.
     */
    constructor (config: GenAIConfig, timeout: int, show: Result<JSON>)
      requires config.providerOptions.Obj?
      ensures this.config == config && providerOptions == Update(LocalOptions, config.providerOptions)
      ensures provider.Some? <==> ModelAvailable(show)
      ensures provider.Some? ==> provider.value == ApiClient(config.baseUrl, timeout)
    {
      this.config := config;
      providerOptions := Update(LocalOptions, config.providerOptions);
      if show.Err? || !show.value.Obj? || Truthy(GetOr(show.value, "error", Null)) {
        provider := None;
      } else {
        provider := Some(ApiClient(config.baseUrl, timeout));
      }
    }

    /**
     * `chat_with_tools`: without a client, or when copying a message
     * raises, the error reply and nothing is sent; otherwise the request
     * goes to `chat`, whose `Err` is any exception.
     */
    method ChatWithTools(messages: seq<JSON>, tools: seq<JSON>, toolChoice: Option<string>,
                         chat: JSON -> Result<JSON>, c: Codec)
      returns (r: Reply, ghost sent: Option<JSON>)
      requires providerOptions.Obj?
      ensures provider.None? || !AllDicts(messages) ==> r == ErrorReply && sent.None?
      ensures provider.Some? && AllDicts(messages) ==>
        && sent == Some(RequestParams(config.model, RequestMessages(messages), tools, toolChoice, providerOptions))
        && r == if chat(sent.value).Err? then ErrorReply else ResponseReply(chat(sent.value).value, c)
    {
      sent := None;
      if provider.None? {
        return ErrorReply, sent;
      }
      var requestMessages := CopyMessages(messages);
      if requestMessages.None? {
        return ErrorReply, sent;
      }
      var requestParams := RequestParams(config.model, requestMessages.value, tools, toolChoice, providerOptions);
      sent := Some(requestParams);
      var response := chat(requestParams);
      if response.Err? {
        return ErrorReply, sent;
      }
      r := ReadReply(response.value, c);
    }
  }

  /**
   * The tool calls of a response message: whether they can be read, and
   * then the converted calls, None when the message lists none.
   */
  method ReadToolCalls(message: JSON, c: Codec) returns (readable: bool, toolCalls: Option<seq<ToolCall>>)
    requires message.Obj?
    ensures var raw := GetOr(message, "tool_calls", Null);
      && (readable <==> !Truthy(raw) || (raw.Arr? && AllCalls(raw.items, c)))
      && (readable ==> toolCalls == if Truthy(raw) then Some(Calls(raw.items, c)) else None)
      && (readable && toolCalls.Some? ==> toolCalls.value != [])
  {
    toolCalls := None;
    var rawCalls := GetOr(message, "tool_calls", Null);
    if Truthy(rawCalls) {
      if !rawCalls.Arr? {
        return false, None;
      }
      toolCalls := ConvertCalls(rawCalls.items, c);
      if toolCalls.None? {
        return false, None;
      }
      assert |toolCalls.value| == |rawCalls.items| && rawCalls.items != [];
    }
    readable := true;
  }

  /** The part of `chat_with_tools` that reads the response into the normalized reply. */
  method ReadReply(response: JSON, c: Codec) returns (r: Reply)
    ensures r == ResponseReply(response, c)
  {
    if !Truthy(response) || !Has(response, "message") {
      return ErrorReply;
    }
    var message := response.values["message"];
    if !message.Obj? {
      return ErrorReply;
    }
    var content: Option<string> := None;
    var raw := GetOr(message, "content", Null);
    if Truthy(raw) {
      if !raw.Str? {
        return ErrorReply;
      }
      content := Some(Strip(raw.s));
    }
    assert ContentOf(message) == Some(content);
    var readable, toolCalls := ReadToolCalls(message, c);
    if !readable {
      return ErrorReply;
    }
    assert Readable(response, c);
    var finishReason := "error";
    if toolCalls.Some? && toolCalls.value != [] {
      finishReason := "tool_calls";
    } else if content.Some? && content.value != "" {
      finishReason := "stop";
    }
    assert finishReason == DerivedFinishReason(toolCalls.Some?, content.Some? && content.value != "");
    r := Reply(content, toolCalls, Some(finishReason));
  }
}
