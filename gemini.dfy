/**
 * The Gemini adapter. Requests are translated into Gemini's own shapes
 * (contents, function declarations, a tool config), and the SDK's typed
 * responses are modelled as datatypes; `generate_content` and
 * `generate_content_stream` are parameters.
 */
module Gemini {
  import opened Wrappers
  import opened Json
  import opened Text
  import Seqs
  import opened GenaiUtils
  import opened ProviderCommon

  // ---------------------------------------------------------------------
  // the client's HTTP options

  /** The retry policy every client is built with. */
  const RetryOptions: JSON :=
    Obj(["attempts", "initial_delay", "max_delay", "exp_base", "jitter", "http_status_codes"],
        map["attempts" := Int(3), "initial_delay" := Float(1.0), "max_delay" := Float(60.0),
            "exp_base" := Float(2.0), "jitter" := Float(1.0),
            "http_status_codes" := Arr([Int(429), Int(500), Int(502), Int(503), Int(504)])])

  /** `_init_provider`: the timeout in milliseconds and the retry policy, overridden by the provider options when they are a dict. */
  function HttpOptions(timeout: int, providerOptions: JSON): JSON {
    var base := Set(Set(Empty, "timeout", Int(timeout * 1000)), "retry_options", RetryOptions);
    if providerOptions.Obj? then Update(base, providerOptions) else base
  }

  /**
   * Every provider option is sent as given; the timeout (seconds, sent as
   * milliseconds) and the retry policy are sent unless an option replaces
   * them, and nothing else is sent.
   */
  lemma HttpOptionsOverride(timeout: int, providerOptions: JSON)
    ensures var r := HttpOptions(timeout, providerOptions);
      && r.Obj?
      && (forall k :: Has(providerOptions, k) ==> Get(r, k) == Get(providerOptions, k))
      && (!Has(providerOptions, "timeout") ==> Get(r, "timeout") == Some(Int(timeout * 1000)))
      && (!Has(providerOptions, "retry_options") ==> Get(r, "retry_options") == Some(RetryOptions))
      && (forall k :: k != "timeout" && k != "retry_options" && !Has(providerOptions, k) ==> !Has(r, k))
  {
  }

  // ---------------------------------------------------------------------
  // message translation

  /** A Gemini `Content`: one text part under role "user" or "model", or a function response under role "function". */
  datatype GContent = TextContent(role: string, text: Option<string>) | FunctionResponse(name: JSON, response: JSON)

  /** Python's `str()` as an f-string applies it to a message's content; `show` renders values other than strings and None. */
  function PyStr(v: JSON, show: JSON -> string): string {
    match v
    case Str(s) => s
    case Null => "None"
    case _ => show(v)
  }

  /** `str()` of a part's optional text. */
  function OptStr(t: Option<string>): string {
    if t.Some? then t.value else "None"
  }

  /** `Part.from_text(text=content)`: a string or None; any other value fails the SDK's validation. */
  function TextOf(content: JSON): Result<Option<string>> {
    match content
    case Str(s) => Ok(Some(s))
    case Null => Ok(None)
    case _ => Err("ValidationError: text is not a string")
  }

  predicate IsSystem(msg: JSON) {
    GetOr(msg, "role", Str("user")) == Str("system")
  }

  /** Whether the first translated message is a user text, the one a later system message is folded into. */
  predicate FirstIsUser(acc: seq<GContent>) {
    acc != [] && acc[0].TextContent? && acc[0].role == "user"
  }

  /** One message as its own content: "assistant" becomes "model", "tool" a function response named by `name`, anything else "user". */
  function Converted(msg: JSON): Result<GContent>
    requires msg.Obj?
  {
    var role := GetOr(msg, "role", Str("user"));
    var content := GetOr(msg, "content", Str(""));
    if role == Str("tool") then Ok(FunctionResponse(GetOr(msg, "name", Str("")), content))
    else match TextOf(content)
      case Err(e) => Err(e)
      case Ok(t) => Ok(TextContent(if role == Str("assistant") then "model" else "user", t))
  }

  /** One more message: a system message is folded into a leading user text when there is one, every other message is appended. */
  function TranslateOne(acc: seq<GContent>, msg: JSON, show: JSON -> string): Result<seq<GContent>> {
    if !msg.Obj? then Err("AttributeError: message is not a dict")
    else if IsSystem(msg) && FirstIsUser(acc) then
      Ok(acc[0 := TextContent("user", Some(PyStr(GetOr(msg, "content", Str("")), show) + "\n\n" + OptStr(acc[0].text)))])
    else match Converted(msg)
      case Err(e) => Err(e)
      case Ok(g) => Ok(acc + [g])
  }

  /** The messages translated in order; the first failure is the whole translation's. */
  function Translate(msgs: seq<JSON>, show: JSON -> string): Result<seq<GContent>> {
    if msgs == [] then Ok([])
    else match Translate(msgs[..|msgs| - 1], show)
      case Err(e) => Err(e)
      case Ok(acc) => TranslateOne(acc, msgs[|msgs| - 1], show)
  }

  lemma TranslateNext(msgs: seq<JSON>, k: nat, show: JSON -> string)
    requires k < |msgs|
    ensures Translate(msgs[..k + 1], show) ==
      if Translate(msgs[..k], show).Err? then Translate(msgs[..k], show)
      else TranslateOne(Translate(msgs[..k], show).value, msgs[k], show)
  {
    assert msgs[..k + 1][..k] == msgs[..k];
  }

  /** After a failure, later messages change nothing. */
  lemma {:induction false} TranslateFailureSticks(msgs: seq<JSON>, k: nat, show: JSON -> string)
    requires k <= |msgs| && Translate(msgs[..k], show).Err?
    ensures Translate(msgs, show) == Translate(msgs[..k], show)
    decreases |msgs| - k
  {
    if k < |msgs| {
      TranslateNext(msgs, k, show);
      TranslateFailureSticks(msgs, k + 1, show);
    } else {
      assert msgs[..k] == msgs;
    }
  }

  /** The translation loop of `chat_with_tools` and `chat_with_tools_stream`, editing the first content in place. */
  method TranslateMessages(messages: seq<JSON>, show: JSON -> string) returns (r: Result<seq<GContent>>)
    ensures r == Translate(messages, show)
  {
    var geminiMessages: seq<GContent> := [];
    var i := 0;
    while i < |messages|
      invariant 0 <= i <= |messages|
      invariant Translate(messages[..i], show) == Ok(geminiMessages)
    {
      TranslateNext(messages, i, show);
      var msg := messages[i];
      if !msg.Obj? {
        TranslateFailureSticks(messages, i + 1, show);
        return Err("AttributeError: message is not a dict");
      }
      var role := GetOr(msg, "role", Str("user"));
      var content := GetOr(msg, "content", Str(""));
      if role == Str("system") && |geminiMessages| > 0 && geminiMessages[0].TextContent? && geminiMessages[0].role == "user" {
        var first := geminiMessages[0];
        geminiMessages := geminiMessages[0 := TextContent("user", Some(PyStr(content, show) + "\n\n" + OptStr(first.text)))];
      } else if role == Str("tool") {
        geminiMessages := geminiMessages + [FunctionResponse(GetOr(msg, "name", Str("")), content)];
      } else {
        var text := TextOf(content);
        if text.Err? {
          TranslateFailureSticks(messages, i + 1, show);
          return Err(text.error);
        }
        geminiMessages := geminiMessages + [TextContent(if role == Str("assistant") then "model" else "user", text.value)];
      }
      i := i + 1;
    }
    assert messages[..i] == messages;
    r := Ok(geminiMessages);
  }

  /**
   * Without system messages, each message becomes exactly one content, at
   * its own position, converted by its role.
   */
  lemma {:induction false} TranslateWithoutSystem(msgs: seq<JSON>, show: JSON -> string)
    requires forall i :: 0 <= i < |msgs| ==> !IsSystem(msgs[i])
    requires Translate(msgs, show).Ok?
    ensures |Translate(msgs, show).value| == |msgs|
    ensures forall i :: 0 <= i < |msgs| ==> msgs[i].Obj? && Converted(msgs[i]) == Ok(Translate(msgs, show).value[i])
  {
    if msgs != [] {
      var front := msgs[..|msgs| - 1];
      assert Translate(front, show).Ok?;
      TranslateWithoutSystem(front, show);
      forall i | 0 <= i < |msgs| - 1 ensures msgs[i].Obj? && Converted(msgs[i]) == Ok(Translate(msgs, show).value[i]) {
        assert msgs[i] == front[i];
      }
    }
  }

  /**
   * A later message never changes what an earlier one produced, except the
   * first content's text, which a system message extends; the translation
   * never has more contents than there are messages.
   */
  lemma {:induction false} TranslateKeepsEarlier(msgs: seq<JSON>, k: nat, show: JSON -> string)
    requires k <= |msgs| && Translate(msgs, show).Ok?
    ensures Translate(msgs[..k], show).Ok?
    ensures var p := Translate(msgs[..k], show).value;
      var r := Translate(msgs, show).value;
      && |p| <= |r| <= |msgs|
      && (forall i :: 1 <= i < |p| ==> r[i] == p[i])
      && (p != [] ==> r[0].TextContent? == p[0].TextContent?)
    decreases |msgs| - k
  {
    if k == |msgs| {
      assert msgs[..k] == msgs;
      TranslateBounded(msgs, show);
    } else {
      TranslateNext(msgs, k, show);
      if Translate(msgs[..k], show).Err? {
        TranslateFailureSticks(msgs, k + 1, show);
        assert false;
      }
      TranslateKeepsEarlier(msgs, k + 1, show);
    }
  }

  lemma {:induction false} TranslateBounded(msgs: seq<JSON>, show: JSON -> string)
    requires Translate(msgs, show).Ok?
    ensures |Translate(msgs, show).value| <= |msgs|
  {
    if msgs != [] {
      TranslateBounded(msgs[..|msgs| - 1], show);
    }
  }

  // ---------------------------------------------------------------------
  // tools and tool choice

  /** A tool of type "function", the only kind that is converted. */
  predicate IsFunctionTool(tool: JSON) {
    tool.Obj? && GetOr(tool, "type", Null) == Str("function")
  }

  /** A `FunctionDeclaration` from a tool's `function` entry: its name, description and parameters, each defaulted. */
  function DeclarationOf(func: JSON): JSON {
    Obj(["name", "description", "parameters"],
        map["name" := GetOr(func, "name", Str("")), "description" := GetOr(func, "description", Str("")),
            "parameters" := GetOr(func, "parameters", Empty)])
  }

  /** The declaration a function tool contributes; `tool["function"]` of a function tool defaults to `{}`. */
  function ToolDeclaration(tool: JSON): JSON {
    DeclarationOf(GetOr(tool, "function", Empty))
  }

  /** The tools converted in order; a tool that is not a dict, or a function entry that is not, raises. */
  function Declarations(tools: seq<JSON>): Result<seq<JSON>> {
    if tools == [] then Ok([])
    else match Declarations(tools[..|tools| - 1])
      case Err(e) => Err(e)
      case Ok(ds) =>
        var tool := tools[|tools| - 1];
        if !tool.Obj? then Err("AttributeError: tool is not a dict")
        else if !IsFunctionTool(tool) then Ok(ds)
        else if !GetOr(tool, "function", Empty).Obj? then Err("AttributeError: function is not a dict")
        else Ok(ds + [ToolDeclaration(tool)])
  }

  lemma DeclarationsNext(tools: seq<JSON>, k: nat)
    requires k < |tools|
    ensures Declarations(tools[..k + 1]) ==
      if Declarations(tools[..k]).Err? then Declarations(tools[..k])
      else var tool := tools[k];
        if !tool.Obj? then Err("AttributeError: tool is not a dict")
        else if !IsFunctionTool(tool) then Declarations(tools[..k])
        else if !GetOr(tool, "function", Empty).Obj? then Err("AttributeError: function is not a dict")
        else Ok(Declarations(tools[..k]).value + [ToolDeclaration(tool)])
  {
    assert tools[..k + 1][..k] == tools[..k];
  }

  lemma {:induction false} DeclarationsFailureSticks(tools: seq<JSON>, k: nat)
    requires k <= |tools| && Declarations(tools[..k]).Err?
    ensures Declarations(tools) == Declarations(tools[..k])
    decreases |tools| - k
  {
    if k < |tools| {
      DeclarationsNext(tools, k);
      DeclarationsFailureSticks(tools, k + 1);
    } else {
      assert tools[..k] == tools;
    }
  }

  /** The tool conversion loop. */
  method ConvertTools(tools: seq<JSON>) returns (r: Result<seq<JSON>>)
    ensures r == Declarations(tools)
  {
    var geminiTools: seq<JSON> := [];
    var i := 0;
    while i < |tools|
      invariant 0 <= i <= |tools|
      invariant Declarations(tools[..i]) == Ok(geminiTools)
    {
      DeclarationsNext(tools, i);
      var tool := tools[i];
      if !tool.Obj? {
        DeclarationsFailureSticks(tools, i + 1);
        return Err("AttributeError: tool is not a dict");
      }
      if GetOr(tool, "type", Null) == Str("function") {
        var func := GetOr(tool, "function", Empty);
        if !func.Obj? {
          DeclarationsFailureSticks(tools, i + 1);
          return Err("AttributeError: function is not a dict");
        }
        geminiTools := geminiTools + [DeclarationOf(func)];
      }
      i := i + 1;
    }
    assert tools[..i] == tools;
    r := Ok(geminiTools);
  }

  /** Only function tools are converted, one declaration each, in their order. */
  lemma {:induction false} DeclarationsAreFunctionTools(tools: seq<JSON>)
    requires Declarations(tools).Ok?
    ensures Declarations(tools).value == Seqs.Map(ToolDeclaration, Seqs.Filter(IsFunctionTool, tools))
  {
    if tools != [] {
      var front := tools[..|tools| - 1];
      var tool := tools[|tools| - 1];
      assert Declarations(front).Ok?;
      DeclarationsAreFunctionTools(front);
      Seqs.MapFilterPrefix(ToolDeclaration, IsFunctionTool, tools, |tools| - 1);
      assert tools[..|tools|] == tools;
    }
  }

  /** `tool_choice` as a function-calling mode: none, auto and required give NONE, AUTO and ANY; anything else sends no tool config. */
  function ToolMode(choice: Option<string>): (r: Option<string>)
    ensures r == Some("NONE") <==> choice == Some("none")
    ensures r == Some("AUTO") <==> choice == Some("auto")
    ensures r == Some("ANY") <==> choice == Some("required")
    ensures r.None? <==> !(choice == Some("none") || choice == Some("auto") || choice == Some("required"))
  {
    if !Given(choice) then None
    else if choice.value == "none" then Some("NONE")
    else if choice.value == "auto" then Some("AUTO")
    else if choice.value == "required" then Some("ANY")
    else None
  }

  /** The generation config: one candidate, the tools when there are any, the tool config when there is one, then the runtime options. */
  function ConfigParams(declarations: seq<JSON>, mode: Option<string>, runtimeOptions: JSON): JSON {
    var p := Obj(["candidate_count"], map["candidate_count" := Int(1)]);
    var p := if declarations != [] then Set(p, "tools", Arr(declarations)) else p;
    var p := if mode.Some? then Set(p, "tool_config", Str(mode.value)) else p;
    if runtimeOptions.Obj? then Update(p, runtimeOptions) else p
  }

  /** Runtime options win; otherwise one candidate, tools exactly when some were converted, a tool config exactly when a mode was chosen. */
  lemma ConfigParamsFields(declarations: seq<JSON>, mode: Option<string>, runtimeOptions: JSON)
    ensures var p := ConfigParams(declarations, mode, runtimeOptions);
      && p.Obj?
      && (forall k :: Has(runtimeOptions, k) ==> Get(p, k) == Get(runtimeOptions, k))
      && (!Has(runtimeOptions, "candidate_count") ==> Get(p, "candidate_count") == Some(Int(1)))
      && (!Has(runtimeOptions, "tools") ==> (Has(p, "tools") <==> declarations != []))
      && (!Has(runtimeOptions, "tools") && declarations != [] ==> Get(p, "tools") == Some(Arr(declarations)))
      && (!Has(runtimeOptions, "tool_config") ==> Get(p, "tool_config") == if mode.Some? then Some(Str(mode.value)) else None)
  {
  }

  /** What `generate_content` is called with. */
  datatype Request = Request(model: string, contents: seq<GContent>, config: JSON)

  /** The request for a call, or the exception raised while building it. */
  function RequestFor(config: GenAIConfig, messages: seq<JSON>, tools: seq<JSON>, toolChoice: Option<string>,
                      show: JSON -> string): Result<Request> {
    match Translate(messages, show)
    case Err(e) => Err(e)
    case Ok(contents) =>
      match Declarations(tools)
      case Err(e) => Err(e)
      case Ok(declarations) => Ok(Request(config.model, contents, ConfigParams(declarations, ToolMode(toolChoice), config.runtimeOptions)))
  }

  // ---------------------------------------------------------------------
  // responses

  datatype FunctionCall = FunctionCall(name: Option<string>, args: Option<JSON>)
  /** A response part: text, or a function call. */
  datatype Part = Part(text: Option<string>, functionCall: Option<FunctionCall>)
  /** `FinishReason`; the members the adapter does not single out are `OtherReason`. */
  datatype FinishReason = Stop | MaxTokens | Safety | Recitation | OtherReason(name: string)
  /** A candidate's parts (an absent content or part list reads as no parts) and its finish reason. */
  datatype Candidate = Candidate(parts: seq<Part>, finishReason: Option<FinishReason>)
  datatype Response = Response(candidates: seq<Candidate>)

  /** `part.function_call.name or ""`. */
  function NameOf(call: FunctionCall): string {
    if Given(call.name) then call.name.value else ""
  }

  /** The call arguments: a non-empty dict as given, anything else `{}`. */
  function ArgsOf(call: FunctionCall): (r: JSON)
    ensures r.Obj?
  {
    if call.args.Some? && Truthy(call.args.value) && call.args.value.Obj? then call.args.value else Empty
  }

  /** A part the loop reads as a call: no text, and a function call. */
  predicate IsCallPart(p: Part) {
    !Given(p.text) && p.functionCall.Some?
  }

  /** The call a call part becomes; its id is the function name. */
  function CallOf(p: Part): ToolCall {
    if p.functionCall.Some? then
      var name := NameOf(p.functionCall.value);
      ToolCall(Str(name), Str(name), ArgsOf(p.functionCall.value))
    else ToolCall(Str(""), Str(""), Empty)
  }

  /** The calls of the call parts, in order. */
  function PartCalls(parts: seq<Part>): (r: seq<ToolCall>)
    ensures |r| <= |parts|
  {
    if parts == [] then []
    else PartCalls(parts[..|parts| - 1]) + (if IsCallPart(parts[|parts| - 1]) then [CallOf(parts[|parts| - 1])] else [])
  }

  /** There is a call exactly when some part is a call part, and each call's id is its function name. */
  lemma {:induction false} PartCallsShape(parts: seq<Part>)
    ensures PartCalls(parts) != [] <==> exists i :: 0 <= i < |parts| && IsCallPart(parts[i])
    ensures forall j :: 0 <= j < |PartCalls(parts)| ==> PartCalls(parts)[j].id == PartCalls(parts)[j].name
  {
    if parts != [] {
      var front := parts[..|parts| - 1];
      PartCallsShape(front);
      if exists i :: 0 <= i < |front| && IsCallPart(front[i]) {
        var i :| 0 <= i < |front| && IsCallPart(front[i]);
        assert parts[i] == front[i];
      }
      if exists i :: 0 <= i < |parts| && IsCallPart(parts[i]) {
        var i :| 0 <= i < |parts| && IsCallPart(parts[i]);
        if i < |front| { assert front[i] == parts[i]; }
      }
    }
  }

  /** The text of the last part that has one. */
  function LastText(parts: seq<Part>): (r: Option<string>)
    ensures r.Some? ==> r.value != "" && exists i :: 0 <= i < |parts| && parts[i].text == r
  {
    if parts == [] then None
    else if Given(parts[|parts| - 1].text) then parts[|parts| - 1].text
    else LastText(parts[..|parts| - 1])
  }

  lemma PartsNext(parts: seq<Part>, i: nat)
    requires i < |parts|
    ensures LastText(parts[..i + 1]) == if Given(parts[i].text) then parts[i].text else LastText(parts[..i])
    ensures PartCalls(parts[..i + 1]) == PartCalls(parts[..i]) + if IsCallPart(parts[i]) then [CallOf(parts[i])] else []
  {
    assert parts[..i + 1][..i] == parts[..i];
  }

  /** The part loop of `chat_with_tools`: the last text, stripped, is the content; every call part is a call, in order. */
  method ExtractParts(parts: seq<Part>) returns (content: Option<string>, toolCalls: Option<seq<ToolCall>>)
    ensures content == if LastText(parts).Some? then Some(Strip(LastText(parts).value)) else None
    ensures toolCalls == if PartCalls(parts) == [] then None else Some(PartCalls(parts))
  {
    content := None;
    toolCalls := None;
    var i := 0;
    while i < |parts|
      invariant 0 <= i <= |parts|
      invariant content == if LastText(parts[..i]).Some? then Some(Strip(LastText(parts[..i]).value)) else None
      invariant toolCalls == if PartCalls(parts[..i]) == [] then None else Some(PartCalls(parts[..i]))
    {
      var part := parts[i];
      PartsNext(parts, i);
      if Given(part.text) {
        content := Some(Strip(part.text.value));
        assert !IsCallPart(parts[i]);
        assert PartCalls(parts[..i + 1]) == PartCalls(parts[..i]);
      } else if part.functionCall.Some? {
        var call := part.functionCall.value;
        var arguments := ArgsOf(call);
        var name := NameOf(call);
        var calls := if toolCalls.None? then [] else toolCalls.value;
        assert calls == PartCalls(parts[..i]);
        assert IsCallPart(part);
        assert ToolCall(Str(name), Str(name), arguments) == CallOf(part);
        toolCalls := Some(calls + [ToolCall(Str(name), Str(name), arguments)]);
        assert PartCalls(parts[..i + 1]) == calls + [CallOf(part)];
        assert toolCalls == Some(PartCalls(parts[..i + 1]));
      } else {
        assert PartCalls(parts[..i + 1]) == PartCalls(parts[..i]);
      }
      i := i + 1;
    }
    assert parts[..i] == parts;
  }

  /** The finish reason of a reply: STOP, MAX_TOKENS, SAFETY and RECITATION are mapped; otherwise calls, content or an error decide. */
  function FinishFor(reason: Option<FinishReason>, hasCalls: bool, content: Option<string>): (r: string)
    ensures reason == Some(Stop) ==> r == "stop"
    ensures r == "length" <==> reason == Some(MaxTokens)
    ensures reason == Some(Safety) || reason == Some(Recitation) ==> r == "error"
    ensures reason.None? || reason.value.OtherReason? ==> r == DerivedFinishReason(hasCalls, content.Some? && content.value != "")
  {
    if reason.Some? && reason.value.Stop? then "stop"
    else if reason.Some? && reason.value.MaxTokens? then "length"
    else if reason.Some? && (reason.value.Safety? || reason.value.Recitation?) then "error"
    else if hasCalls then "tool_calls"
    else if content.Some? && content.value != "" then "stop"
    else "error"
  }

  /** The reply to a response: no response or no candidates is the error reply. */
  function ResponseReply(response: Option<Response>): Reply {
    if response.None? || response.value.candidates == [] then ErrorReply
    else
      var candidate := response.value.candidates[0];
      var content := if LastText(candidate.parts).Some? then Some(Strip(LastText(candidate.parts).value)) else None;
      var calls := PartCalls(candidate.parts);
      var toolCalls := if calls == [] then None else Some(calls);
      Reply(content, toolCalls, Some(FinishFor(candidate.finishReason, toolCalls.Some?, content)))
  }

  /**
   * No response or no candidates is the error reply. Otherwise there are
   * calls exactly when some part is a call part, each call's id is its
   * function name, the content is some part's text stripped, and STOP
   * gives "stop" even when there are calls.
   */
  lemma ResponseReplyCases(response: Option<Response>)
    ensures response.None? || response.value.candidates == [] ==> ResponseReply(response) == ErrorReply
    ensures response.Some? && response.value.candidates != [] ==>
      var candidate := response.value.candidates[0];
      var r := ResponseReply(response);
      && (r.toolCalls.Some? <==> exists i :: 0 <= i < |candidate.parts| && IsCallPart(candidate.parts[i]))
      && (r.toolCalls.Some? ==> forall j :: 0 <= j < |r.toolCalls.value| ==> r.toolCalls.value[j].id == r.toolCalls.value[j].name)
      && (r.content.Some? ==> exists i :: 0 <= i < |candidate.parts| && Given(candidate.parts[i].text)
                                          && r.content.value == Strip(candidate.parts[i].text.value))
      && (candidate.finishReason == Some(Stop) ==> r.finishReason == Some("stop"))
  {
    if response.Some? && response.value.candidates != [] {
      PartCallsShape(response.value.candidates[0].parts);
    }
  }

  // ---------------------------------------------------------------------
  // the stream

  /** Everything the stream has gathered so far; slots are keyed 0, 1, … in the order their names were first seen. */
  datatype StreamState = StreamState(parts: seq<string>, slots: Slots<int>, finishReason: string, events: seq<StreamEvent>)

  /** The first of `keys` whose slot carries function name `name`. */
  function SlotNamed(slots: Slots<int>, keys: seq<int>, name: string): (r: Option<int>)
    ensures r.Some? ==> r.value in keys && SlotAt(slots, r.value).name == Str(name)
    ensures r.None? ==> forall i :: 0 <= i < |keys| ==> SlotAt(slots, keys[i]).name != Str(name)
  {
    if keys == [] then None
    else if SlotAt(slots, keys[0]).name == Str(name) then Some(keys[0])
    else SlotNamed(slots, keys[1..], name)
  }

  /** The lookup loop over `tool_calls_by_index.items()`. */
  method FindByName(slots: Slots<int>, name: string) returns (found: Option<int>)
    ensures found == SlotNamed(slots, slots.order, name)
  {
    var i := 0;
    while i < |slots.order|
      invariant 0 <= i <= |slots.order|
      invariant SlotNamed(slots, slots.order, name) == SlotNamed(slots, slots.order[i..], name)
    {
      assert slots.order[i..][1..] == slots.order[i + 1..];
      if SlotAt(slots, slots.order[i]).name == Str(name) {
        return Some(slots.order[i]);
      }
      i := i + 1;
    }
    return None;
  }

  /** One function-call part: the slot for its name, opened at index `len(slots)` when new; a non-empty argument dict is appended as JSON text. */
  function StepCall(slots: Slots<int>, call: FunctionCall, c: Codec): Slots<int> {
    var name := NameOf(call);
    var arguments := ArgsOf(call);
    var found := SlotNamed(slots, slots.order, name);
    var idx := if found.Some? then found.value else |slots.order|;
    var withSlot := if found.Some? then slots else PutSlot(slots, idx, Slot(Str(name), Str(name), ""));
    if Truthy(arguments) then PutSlot(withSlot, idx, SlotAt(withSlot, idx).(arguments := SlotAt(withSlot, idx).arguments + c.dumps(arguments)))
    else withSlot
  }

  /** One part: its text is gathered and yielded, or its call accumulated. */
  function StepPart(st: StreamState, part: Part, c: Codec): StreamState {
    if Given(part.text) then st.(parts := st.parts + [part.text.value], events := st.events + [ContentDelta(part.text.value)])
    else if part.functionCall.Some? then st.(slots := StepCall(st.slots, part.functionCall.value, c))
    else st
  }

  function StepParts(st: StreamState, parts: seq<Part>, c: Codec): StreamState {
    if parts == [] then st else StepPart(StepParts(st, parts[..|parts| - 1], c), parts[|parts| - 1], c)
  }

  /** The finish reason after a chunk: STOP, MAX_TOKENS, SAFETY and RECITATION replace it, anything else keeps it. */
  function ChunkFinishReason(current: string, reason: Option<FinishReason>): string {
    if reason.None? then current
    else match reason.value
      case Stop => "stop"
      case MaxTokens => "length"
      case Safety => "error"
      case Recitation => "error"
      case OtherReason(_) => current
  }

  /** One chunk; an empty chunk or one without candidates is skipped. */
  function StepChunk(st: StreamState, chunk: Option<Response>, c: Codec): StreamState {
    if chunk.None? || chunk.value.candidates == [] then st
    else
      var candidate := chunk.value.candidates[0];
      StepParts(st.(finishReason := ChunkFinishReason(st.finishReason, candidate.finishReason)), candidate.parts, c)
  }

  function Fold(chunks: seq<Option<Response>>, c: Codec): StreamState {
    if chunks == [] then StreamState([], Slots([], map[]), "stop", [])
    else StepChunk(Fold(chunks[..|chunks| - 1], c), chunks[|chunks| - 1], c)
  }

  /** The final message of a stream that ran to its end. */
  function FinalMessage(st: StreamState, c: Codec): Reply {
    if st.slots.at != map[] then Reply(JoinedContent(st.parts), Some(CallsAt(st.slots, st.slots.order, c)), Some("tool_calls"))
    else Reply(JoinedContent(st.parts), None, Some(st.finishReason))
  }

  /** The specification of a stream that `generate_content_stream` opened. */
  function StreamEvents(chunks: seq<Option<Response>>, c: Codec): seq<StreamEvent> {
    var st := Fold(chunks, c);
    st.events + [Message(FinalMessage(st, c))]
  }

  /**
   * An opened stream: its events, or, when iterating it raised, the deltas
   * yielded before the raise followed by the error message.
   */
  function OpenedEvents(s: Streamed<Option<Response>>, c: Codec): seq<StreamEvent> {
    if s.raised then Fold(s.chunks, c).events + [Message(ErrorReply)] else StreamEvents(s.chunks, c)
  }

  lemma FoldNext(chunks: seq<Option<Response>>, k: nat, c: Codec)
    requires k < |chunks|
    ensures Fold(chunks[..k + 1], c) == StepChunk(Fold(chunks[..k], c), chunks[k], c)
  {
    assert chunks[..k + 1][..k] == chunks[..k];
  }

  lemma StepPartsNext(st: StreamState, parts: seq<Part>, k: nat, c: Codec)
    requires k < |parts|
    ensures StepParts(st, parts[..k + 1], c) == StepPart(StepParts(st, parts[..k], c), parts[k], c)
  {
    assert parts[..k + 1][..k] == parts[..k];
  }

  /** The part loop of one streamed chunk. */
  method StreamParts(parts: seq<Part>, contentParts: seq<string>, slots: Slots<int>, finishReason: string,
                     events: seq<StreamEvent>, c: Codec)
    returns (contentParts': seq<string>, slots': Slots<int>, events': seq<StreamEvent>)
    ensures StreamState(contentParts', slots', finishReason, events') ==
            StepParts(StreamState(contentParts, slots, finishReason, events), parts, c)
  {
    contentParts', slots', events' := contentParts, slots, events;
    ghost var st := StreamState(contentParts, slots, finishReason, events);
    var i := 0;
    while i < |parts|
      invariant 0 <= i <= |parts|
      invariant StepParts(st, parts[..i], c) == StreamState(contentParts', slots', finishReason, events')
    {
      StepPartsNext(st, parts, i, c);
      ghost var before := slots';
      var part := parts[i];
      if Given(part.text) {
        contentParts' := contentParts' + [part.text.value];
        events' := events' + [ContentDelta(part.text.value)];
      } else if part.functionCall.Some? {
        var call := part.functionCall.value;
        var arguments := ArgsOf(call);
        var name := NameOf(call);
        var foundIndex := FindByName(slots', name);
        if foundIndex.None? {
          foundIndex := Some(|slots'.order|);
          slots' := PutSlot(slots', foundIndex.value, Slot(Str(name), Str(name), ""));
        }
        if Truthy(arguments) {
          var slot := SlotAt(slots', foundIndex.value);
          slots' := PutSlot(slots', foundIndex.value, slot.(arguments := slot.arguments + c.dumps(arguments)));
        }
        assert slots' == StepCall(before, call, c);
      }
      i := i + 1;
    }
    assert parts[..i] == parts;
  }

  /** Slot keys are 0, 1, … in order, each listed once, and no two slots carry the same function name. */
  ghost predicate NamedSlots(s: Slots<int>) {
    && SlotsValid(s)
    && (forall i :: 0 <= i < |s.order| ==> s.order[i] == i)
    && (forall i, j :: 0 <= i < j < |s.order| ==> SlotAt(s, i).name != SlotAt(s, j).name)
  }

  /**
   * A call whose function name already has a slot shares it: no slot is
   * opened and only that slot's argument text grows, by the JSON text of a
   * non-empty argument dict. A new name opens slot `len(slots)` with the
   * name as id and name and no argument text yet.
   */
  lemma CallAccumulates(slots: Slots<int>, call: FunctionCall, c: Codec)
    requires NamedSlots(slots)
    ensures var r := StepCall(slots, call, c);
      var name := NameOf(call);
      var piece := if Truthy(ArgsOf(call)) then c.dumps(ArgsOf(call)) else "";
      var found := SlotNamed(slots, slots.order, name);
      && NamedSlots(r)
      && (found.Some? ==> r.order == slots.order
                          && SlotAt(r, found.value) == SlotAt(slots, found.value).(arguments := SlotAt(slots, found.value).arguments + piece)
                          && forall j :: j != found.value ==> SlotAt(r, j) == SlotAt(slots, j))
      && (found.None? ==> r.order == slots.order + [|slots.order|]
                          && SlotAt(r, |slots.order|) == Slot(Str(name), Str(name), piece)
                          && forall j :: j != |slots.order| ==> SlotAt(r, j) == SlotAt(slots, j))
  {
    if SlotNamed(slots, slots.order, NameOf(call)).None? {
      CallOpensSlot(slots, call, c);
    } else {
      CallSharesSlot(slots, call, c);
    }
  }

  lemma CallSharesSlot(slots: Slots<int>, call: FunctionCall, c: Codec)
    requires NamedSlots(slots) && SlotNamed(slots, slots.order, NameOf(call)).Some?
    ensures var r := StepCall(slots, call, c);
      var idx := SlotNamed(slots, slots.order, NameOf(call)).value;
      && NamedSlots(r) && r.order == slots.order
      && SlotAt(r, idx) == SlotAt(slots, idx).(arguments := SlotAt(slots, idx).arguments + (if Truthy(ArgsOf(call)) then c.dumps(ArgsOf(call)) else ""))
      && forall j :: j != idx ==> SlotAt(r, j) == SlotAt(slots, j)
  {
    var idx := SlotNamed(slots, slots.order, NameOf(call)).value;
    var r := StepCall(slots, call, c);
    assert idx in slots.at;
    if Truthy(ArgsOf(call)) {
      PutSlotKeepsValid(slots, idx, SlotAt(slots, idx).(arguments := SlotAt(slots, idx).arguments + c.dumps(ArgsOf(call))));
    }
    assert forall j :: SlotAt(r, j).name == SlotAt(slots, j).name;
  }

  lemma CallOpensSlot(slots: Slots<int>, call: FunctionCall, c: Codec)
    requires NamedSlots(slots) && SlotNamed(slots, slots.order, NameOf(call)).None?
    ensures var r := StepCall(slots, call, c);
      var n := |slots.order|;
      && NamedSlots(r) && r.order == slots.order + [n]
      && SlotAt(r, n) == Slot(Str(NameOf(call)), Str(NameOf(call)), if Truthy(ArgsOf(call)) then c.dumps(ArgsOf(call)) else "")
      && forall j :: j != n ==> SlotAt(r, j) == SlotAt(slots, j)
  {
    var name := NameOf(call);
    var filled := Slot(Str(name), Str(name), if Truthy(ArgsOf(call)) then c.dumps(ArgsOf(call)) else "");
    NewCallSlot(slots, call, c);
    NamedSlotsKeys(slots);
    forall i | 0 <= i < |slots.order| ensures SlotAt(slots, i).name != filled.name {
      assert slots.order[i] == i;
    }
    OpenKeepsNamed(slots, filled);
  }

  /** A new name's slot is opened and filled in one step. */
  lemma NewCallSlot(slots: Slots<int>, call: FunctionCall, c: Codec)
    requires SlotNamed(slots, slots.order, NameOf(call)).None? && |slots.order| !in slots.at
    ensures StepCall(slots, call, c) ==
      PutSlot(slots, |slots.order|, Slot(Str(NameOf(call)), Str(NameOf(call)), if Truthy(ArgsOf(call)) then c.dumps(ArgsOf(call)) else ""))
  {
    var n := |slots.order|;
    var name := NameOf(call);
    var fresh0 := Slot(Str(name), Str(name), "");
    if Truthy(ArgsOf(call)) {
      assert "" + c.dumps(ArgsOf(call)) == c.dumps(ArgsOf(call));
      PutSlotTwice(slots, n, fresh0, fresh0.(arguments := c.dumps(ArgsOf(call))));
    }
  }

  /** The keys of well-named slots are exactly 0 … n-1. */
  lemma NamedSlotsKeys(slots: Slots<int>)
    requires NamedSlots(slots)
    ensures forall k :: k in slots.at <==> 0 <= k < |slots.order|
  {
    forall k | k in slots.at ensures 0 <= k < |slots.order| {
      var j :| 0 <= j < |slots.order| && slots.order[j] == k;
    }
    forall k | 0 <= k < |slots.order| ensures k in slots.at {
      assert slots.order[k] == k;
    }
  }

  /** Opening slot n under a name no slot carries keeps the slots well named. */
  lemma OpenKeepsNamed(slots: Slots<int>, slot: Slot)
    requires NamedSlots(slots) && |slots.order| !in slots.at
    requires forall i :: 0 <= i < |slots.order| ==> SlotAt(slots, i).name != slot.name
    ensures NamedSlots(PutSlot(slots, |slots.order|, slot))
  {
    var n := |slots.order|;
    var r := PutSlot(slots, n, slot);
    PutSlotKeepsValid(slots, n, slot);
    forall i, j | 0 <= i < j < |r.order| ensures SlotAt(r, i).name != SlotAt(r, j).name {
      assert SlotAt(r, i) == SlotAt(slots, i);
      if j < n {
        assert SlotAt(r, j) == SlotAt(slots, j);
      }
    }
  }

  /** Parts keep the slots well named, and each yielded delta is the gathered text at the same position. */
  lemma {:induction false} PartsInvariant(st: StreamState, parts: seq<Part>, c: Codec)
    requires NamedSlots(st.slots)
    requires |st.events| == |st.parts| && forall i :: 0 <= i < |st.parts| ==> st.events[i] == ContentDelta(st.parts[i])
    ensures var r := StepParts(st, parts, c);
      && NamedSlots(r.slots) && r.finishReason == st.finishReason
      && |r.events| == |r.parts| && (forall i :: 0 <= i < |r.parts| ==> r.events[i] == ContentDelta(r.parts[i]))
  {
    if parts != [] {
      var front := StepParts(st, parts[..|parts| - 1], c);
      PartsInvariant(st, parts[..|parts| - 1], c);
      var part := parts[|parts| - 1];
      if !Given(part.text) && part.functionCall.Some? {
        CallAccumulates(front.slots, part.functionCall.value, c);
      }
    }
  }

  /** Over the whole stream: deltas match the gathered parts one for one, and slots are keyed 0, 1, … with distinct names. */
  lemma {:induction false} FoldInvariant(chunks: seq<Option<Response>>, c: Codec)
    ensures var st := Fold(chunks, c);
      && NamedSlots(st.slots)
      && |st.events| == |st.parts| && (forall i :: 0 <= i < |st.parts| ==> st.events[i] == ContentDelta(st.parts[i]))
  {
    if chunks != [] {
      var front := Fold(chunks[..|chunks| - 1], c);
      FoldInvariant(chunks[..|chunks| - 1], c);
      var chunk := chunks[|chunks| - 1];
      if chunk.Some? && chunk.value.candidates != [] {
        var candidate := chunk.value.candidates[0];
        PartsInvariant(front.(finishReason := ChunkFinishReason(front.finishReason, candidate.finishReason)), candidate.parts, c);
      }
    }
  }

  /**
   * Deltas come first, then the single final message; with any slot there
   * is one call per distinct function name, in first-seen order, and the
   * finish reason is "tool_calls".
   */
  lemma StreamShape(chunks: seq<Option<Response>>, c: Codec)
    ensures var events := StreamEvents(chunks, c);
      var st := Fold(chunks, c);
      && EndsWithMessage(events)
      && events[..|events| - 1] == st.events
      && (st.slots.at != map[] ==> events[|events| - 1].reply.finishReason == Some("tool_calls")
                                   && events[|events| - 1].reply.toolCalls == Some(CallsAt(st.slots, st.slots.order, c)))
      && (st.slots.at == map[] ==> events[|events| - 1].reply == Reply(JoinedContent(st.parts), None, Some(st.finishReason)))
      && (forall i, j :: 0 <= i < j < |st.slots.order| ==> SlotAt(st.slots, i).name != SlotAt(st.slots, j).name)
  {
    FoldInvariant(chunks, c);
    var events := StreamEvents(chunks, c);
    var st := Fold(chunks, c);
    assert events[..|events| - 1] == st.events;
    forall i | 0 <= i < |events| - 1 ensures events[i].ContentDelta? {
      assert events[i] == st.events[i];
    }
  }

  /**
   * A stream that raises part-way still ends with one message, the error
   * reply, after exactly the content deltas gathered before the raise.
   */
  lemma RaisedStreamShape(s: Streamed<Option<Response>>, c: Codec)
    requires s.raised
    ensures var events := OpenedEvents(s, c);
      var st := Fold(s.chunks, c);
      && EndsWithMessage(events)
      && events[|events| - 1] == Message(ErrorReply)
      && events[..|events| - 1] == st.events
      && |st.parts| == |events| - 1
      && (forall i :: 0 <= i < |events| - 1 ==> events[i] == ContentDelta(st.parts[i]))
  {
    FoldInvariant(s.chunks, c);
    var events := OpenedEvents(s, c);
    var st := Fold(s.chunks, c);
    assert events[..|events| - 1] == st.events;
    forall i | 0 <= i < |events| - 1 ensures events[i] == ContentDelta(st.parts[i]) {
      assert events[i] == st.events[i];
    }
  }

  /** `GeminiClient`: the config entry and the HTTP options its SDK client was built with. */
  class GeminiClient {
    const config: GenAIConfig
    const httpOptions: JSON

    constructor (config: GenAIConfig, timeout: int)
      ensures this.config == config && httpOptions == HttpOptions(timeout, config.providerOptions)
    {
      this.config := config;
      httpOptions := HttpOptions(timeout, config.providerOptions);
    }

    /** Builds the request; None when translating the messages or the tools raises. */
    method BuildRequest(messages: seq<JSON>, tools: seq<JSON>, toolChoice: Option<string>, show: JSON -> string)
      returns (request: Option<Request>)
      ensures RequestFor(config, messages, tools, toolChoice, show).Err? ==> request.None?
      ensures RequestFor(config, messages, tools, toolChoice, show).Ok? ==> request == Some(RequestFor(config, messages, tools, toolChoice, show).value)
    {
      var geminiMessages := TranslateMessages(messages, show);
      if geminiMessages.Err? {
        return None;
      }
      var geminiTools: seq<JSON> := [];
      if tools != [] {
        var converted := ConvertTools(tools);
        if converted.Err? {
          return None;
        }
        geminiTools := converted.value;
      }
      var toolConfig: Option<string> := None;
      if Given(toolChoice) {
        if toolChoice.value == "none" {
          toolConfig := Some("NONE");
        } else if toolChoice.value == "auto" {
          toolConfig := Some("AUTO");
        } else if toolChoice.value == "required" {
          toolConfig := Some("ANY");
        }
      }
      var configParams := ConfigParams(geminiTools, toolConfig, config.runtimeOptions);
      return Some(Request(config.model, geminiMessages.value, configParams));
    }

    /**
     * `chat_with_tools`: any exception, while building the request or from
     * `generate` (its `Err`), gives the error reply.
     */
    method ChatWithTools(messages: seq<JSON>, tools: seq<JSON>, toolChoice: Option<string>, show: JSON -> string,
                         generate: Request -> Result<Option<Response>>)
      returns (r: Reply, ghost sent: Option<Request>)
      ensures RequestFor(config, messages, tools, toolChoice, show).Err? ==> r == ErrorReply && sent.None?
      ensures RequestFor(config, messages, tools, toolChoice, show).Ok? ==>
        && sent == Some(RequestFor(config, messages, tools, toolChoice, show).value)
        && r == if generate(sent.value).Err? then ErrorReply else ResponseReply(generate(sent.value).value)
    {
      var request := BuildRequest(messages, tools, toolChoice, show);
      sent := request;
      if request.None? {
        return ErrorReply, sent;
      }
      var response := generate(request.value);
      if response.Err? || response.value.None? || response.value.value.candidates == [] {
        return ErrorReply, sent;
      }
      var candidate := response.value.value.candidates[0];
      var content, toolCalls := ExtractParts(candidate.parts);
      var hasCalls := toolCalls.Some? && toolCalls.value != [];
      var hasContent := content.Some? && content.value != "";
      var finishReason := "error";
      if candidate.finishReason.Some? {
        var reason := candidate.finishReason.value;
        if reason == Stop {
          finishReason := "stop";
        } else if reason == MaxTokens {
          finishReason := "length";
        } else if reason == Safety || reason == Recitation {
          finishReason := "error";
        } else if hasCalls {
          finishReason := "tool_calls";
        } else if hasContent {
          finishReason := "stop";
        }
      } else if hasCalls {
        finishReason := "tool_calls";
      } else if hasContent {
        finishReason := "stop";
      }
      assert hasCalls == toolCalls.Some?;
      assert finishReason == FinishFor(candidate.finishReason, toolCalls.Some?, content);
      r := Reply(content, toolCalls, Some(finishReason));
      assert r == ResponseReply(response.value);
    }

    /**
     * `chat_with_tools_stream`: the chunks `generateStream` yields are
     * folded; if building the request or opening the stream raises, the
     * only event is the error message, and if the iteration raises, the
     * error message follows the deltas already yielded.
     */
    method ChatWithToolsStream(messages: seq<JSON>, tools: seq<JSON>, toolChoice: Option<string>, show: JSON -> string,
                               generateStream: Request -> Result<Streamed<Option<Response>>>, c: Codec)
      returns (events: seq<StreamEvent>, ghost sent: Option<Request>)
      ensures RequestFor(config, messages, tools, toolChoice, show).Err? ==> events == [Message(ErrorReply)] && sent.None?
      ensures RequestFor(config, messages, tools, toolChoice, show).Ok? ==>
        && sent == Some(RequestFor(config, messages, tools, toolChoice, show).value)
        && events == if generateStream(sent.value).Err? then [Message(ErrorReply)] else OpenedEvents(generateStream(sent.value).value, c)
    {
      var request := BuildRequest(messages, tools, toolChoice, show);
      sent := request;
      if request.None? {
        return [Message(ErrorReply)], sent;
      }
      var response := generateStream(request.value);
      if response.Err? {
        return [Message(ErrorReply)], sent;
      }
      var chunks := response.value.chunks;
      var contentParts: seq<string> := [];
      var toolCallsByIndex: Slots<int> := Slots([], map[]);
      var finishReason := "stop";
      events := [];
      var k := 0;
      while k < |chunks|
        invariant 0 <= k <= |chunks|
        invariant Fold(chunks[..k], c) == StreamState(contentParts, toolCallsByIndex, finishReason, events)
      {
        FoldNext(chunks, k, c);
        var chunk := chunks[k];
        if chunk.Some? && chunk.value.candidates != [] {
          var candidate := chunk.value.candidates[0];
          ghost var before := finishReason;
          if candidate.finishReason.Some? {
            var reason := candidate.finishReason.value;
            if reason == Stop {
              finishReason := "stop";
            } else if reason == MaxTokens {
              finishReason := "length";
            } else if reason == Safety || reason == Recitation {
              finishReason := "error";
            }
          }
          assert finishReason == ChunkFinishReason(before, candidate.finishReason);
          contentParts, toolCallsByIndex, events := StreamParts(candidate.parts, contentParts, toolCallsByIndex, finishReason, events, c);
        }
        k := k + 1;
      }
      assert chunks[..k] == chunks;
      if response.value.raised {
        return events + [Message(ErrorReply)], sent;
      }
      var fullContent := JoinedContent(contentParts);
      var toolCallsList: Option<seq<ToolCall>> := None;
      if toolCallsByIndex.at != map[] {
        var calls := SlotsInOrder(toolCallsByIndex, c);
        toolCallsList := Some(calls);
        finishReason := "tool_calls";
      }
      events := events + [Message(Reply(fullContent, toolCallsList, Some(finishReason)))];
    }
  }
}
