/**
 * `POST /chat/completion`: the system prompt, the initial conversation built
 * from the request, and the tool loop run with the tools of the chat module.
 * The clock, the GenAI client binding and everything the tools read are
 * parameters.
 */
module ChatEndpoint {
  import opened Wrappers
  import opened Json
  import opened Text
  import opened Seqs
  import opened ChatTools
  import opened Chat

  // ---------------------------------------------------------------------
  // system prompt

  /** The name a camera is shown by: its truthy `friendly_name`, else its id with "_" as " " in title case. */
  function FriendlyName(id: string, cfg: CameraConfig): string {
    if cfg.friendlyName.Some? && cfg.friendlyName.value != "" then cfg.friendlyName.value
    else Title(ReplaceChar(id, '_', ' '))
  }

  function CameraLine(id: string, cfg: CameraConfig): string {
    "  - " + FriendlyName(id, cfg) + " (ID: " + id + ")"
  }

  /** One line per allowed camera that is configured, in the caller's order. */
  function CameraLines(allowed: seq<string>, cameras: map<string, CameraConfig>): seq<string> {
    if allowed == [] then []
    else
      var id := allowed[|allowed| - 1];
      CameraLines(allowed[..|allowed| - 1], cameras) + (if id in cameras then [CameraLine(id, cameras[id])] else [])
  }

  /** A line is listed exactly when it describes an allowed, configured camera. */
  lemma {:induction false} CameraLinesListed(allowed: seq<string>, cameras: map<string, CameraConfig>, line: string)
    ensures line in CameraLines(allowed, cameras) <==>
            exists id :: id in allowed && id in cameras && line == CameraLine(id, cameras[id])
    ensures |CameraLines(allowed, cameras)| <= |allowed|
  {
    if allowed != [] {
      var front := allowed[..|allowed| - 1];
      var id := allowed[|allowed| - 1];
      CameraLinesListed(front, cameras, line);
      assert allowed == front + [id];
      if exists id' :: id' in allowed && id' in cameras && line == CameraLine(id', cameras[id']) {
        var id' :| id' in allowed && id' in cameras && line == CameraLine(id', cameras[id']);
        if id' != id { assert id' in front; }
      }
    }
  }

  /** The `for camera_id in allowed_cameras` loop filling `cameras_info`. */
  method CollectCameraLines(allowed: seq<string>, cameras: map<string, CameraConfig>) returns (lines: seq<string>)
    ensures lines == CameraLines(allowed, cameras)
  {
    lines := [];
    var k := 0;
    while k < |allowed|
      invariant 0 <= k <= |allowed|
      invariant lines == CameraLines(allowed[..k], cameras)
    {
      var id := allowed[k];
      assert allowed[..k + 1][..k] == allowed[..k];
      k := k + 1;
      if id !in cameras {
        continue;
      }
      lines := lines + [CameraLine(id, cameras[id])];
    }
    assert allowed[..k] == allowed;
  }

  const CamerasHeader := "\n\nAvailable cameras:\n"
  const CamerasHint :=
    "\n\nWhen users refer to cameras by their friendly name (e.g., 'Back Deck Camera'), use the corresponding camera ID (e.g., 'back_deck_cam') in tool calls."

  /** The cameras section: empty when no camera is listed. */
  function CamerasSection(lines: seq<string>): (r: string)
    ensures r == "" <==> lines == []
  {
    if lines == [] then "" else CamerasHeader + Join(lines, "\n") + CamerasHint
  }

  const LiveImageNoteOpening := "\n\nThe first user message includes a live image from camera '"
  const LiveImageNoteClosing :=
    "'. Use get_live_context for that camera to get current detection details (objects, zones) to aid in understanding the image."

  /** The note about the live image: only when `include_live_image` is a non-empty camera name. */
  function LiveImageNote(includeLiveImage: Option<string>): (r: string)
    ensures r == "" <==> includeLiveImage.None? || includeLiveImage.value == ""
  {
    if includeLiveImage.Some? && includeLiveImage.value != "" then
      LiveImageNoteOpening + includeLiveImage.value + LiveImageNoteClosing
    else ""
  }

  const PromptOpening :=
    "You are a helpful assistant for Frigate, a security camera NVR system. You help users answer questions about their cameras, detected objects, and events.\n\nCurrent date and time: "
  const PromptRelativeDates :=
    " (UTC)\n\nWhen users ask questions about \"today\", \"yesterday\", \"this week\", etc., use the current date above as reference.\nWhen searching for objects or events, use ISO 8601 format for dates (e.g., "
  const PromptClosing :=
    "T00:00:00Z for the start of today).\nAlways be accurate with time calculations based on the current date provided."

  /** The system prompt for the current UTC date (`%Y-%m-%d`) and time (`%H:%M:%S %Z`). */
  function SystemPrompt(date: string, time: string, camerasSection: string, liveImageNote: string): string {
    PromptOpening + date + " at " + time + PromptRelativeDates + date + PromptClosing + (camerasSection + liveImageNote)
  }

  /** The prompt opens with the fixed introduction and ends with the cameras section and the live image note. */
  lemma SystemPromptShape(date: string, time: string, camerasSection: string, liveImageNote: string)
    ensures var r := SystemPrompt(date, time, camerasSection, liveImageNote);
      && StartsWith(r, PromptOpening)
      && |camerasSection + liveImageNote| <= |r|
      && r[|r| - |camerasSection + liveImageNote|..] == camerasSection + liveImageNote
  {
    var head := PromptOpening + date + " at " + time + PromptRelativeDates + date + PromptClosing;
    var r := SystemPrompt(date, time, camerasSection, liveImageNote);
    assert r == head + (camerasSection + liveImageNote);
    assert r[..|PromptOpening|] == PromptOpening;
    assert r[|head|..] == camerasSection + liveImageNote;
  }

  // ---------------------------------------------------------------------
  // initial conversation

  function SystemMessage(prompt: string): JSON {
    Set(Set(Empty, "role", Str("system")), "content", Str(prompt))
  }

  /** A caller message as a dict: role and content, then `tool_call_id` and `name` when truthy. */
  function MessageDict(m: ChatMessage): JSON {
    var base := Set(Set(Empty, "role", Str(m.role)), "content", Str(m.content));
    var withId := if m.toolCallId.Some? && m.toolCallId.value != "" then Set(base, "tool_call_id", Str(m.toolCallId.value)) else base;
    if m.name.Some? && m.name.value != "" then Set(withId, "name", Str(m.name.value)) else withId
  }

  /** The text+image content block that replaces the first user message's text. */
  function ImageContent(text: string, url: string): JSON {
    Arr([Set(Set(Empty, "type", Str("text")), "text", Str(text)),
         Set(Set(Empty, "type", Str("image_url")), "image_url", Set(Empty, "url", Str(url)))])
  }

  /** The dict of one caller message; `attach` says it is the message that gets the live image, if there is one. */
  function RequestMessage(m: ChatMessage, attach: bool, url: Option<string>): JSON {
    if attach && url.Some? && url.value != "" then Set(MessageDict(m), "content", ImageContent(m.content, url.value))
    else MessageDict(m)
  }

  predicate IncludesImage(includeLiveImage: Option<string>) {
    includeLiveImage.Some? && includeLiveImage.value != ""
  }

  predicate HasUser(messages: seq<ChatMessage>) {
    exists i :: 0 <= i < |messages| && messages[i].role == "user"
  }

  /** The caller messages as dicts, the first user message carrying the live image when there is one. */
  function RequestMessages(messages: seq<ChatMessage>, includeLiveImage: Option<string>, url: Option<string>): seq<JSON> {
    if messages == [] then []
    else
      var front := messages[..|messages| - 1];
      var m := messages[|messages| - 1];
      RequestMessages(front, includeLiveImage, url)
        + [RequestMessage(m, IncludesImage(includeLiveImage) && m.role == "user" && !HasUser(front), url)]
  }

  /**
   * Each caller message keeps its place, and the one that gets the live
   * image is the first user-role message, when a live image is asked for.
   */
  lemma RequestMessagesEach(messages: seq<ChatMessage>, includeLiveImage: Option<string>, url: Option<string>)
    ensures var ds := RequestMessages(messages, includeLiveImage, url);
      && |ds| == |messages|
      && forall i :: 0 <= i < |messages| ==>
           ds[i] == RequestMessage(messages[i],
                                   IncludesImage(includeLiveImage) && messages[i].role == "user" && !HasUser(messages[..i]), url)
  {
    RequestMessagesLength(messages, includeLiveImage, url);
    forall i | 0 <= i < |messages|
      ensures RequestMessages(messages, includeLiveImage, url)[i]
              == RequestMessage(messages[i], IncludesImage(includeLiveImage) && messages[i].role == "user" && !HasUser(messages[..i]), url)
    {
      RequestMessageAt(messages, includeLiveImage, url, i);
    }
  }

  /** One dict per caller message. */
  lemma {:induction false} RequestMessagesLength(messages: seq<ChatMessage>, includeLiveImage: Option<string>, url: Option<string>)
    ensures |RequestMessages(messages, includeLiveImage, url)| == |messages|
  {
    if messages != [] {
      RequestMessagesLength(messages[..|messages| - 1], includeLiveImage, url);
    }
  }

  /** The dict of caller message `i`: the live image goes with it exactly when it is the first user message. */
  lemma {:induction false} RequestMessageAt(messages: seq<ChatMessage>, includeLiveImage: Option<string>, url: Option<string>, i: nat)
    requires i < |messages|
    ensures var ds := RequestMessages(messages, includeLiveImage, url);
      && i < |ds|
      && ds[i] == RequestMessage(messages[i], IncludesImage(includeLiveImage) && messages[i].role == "user" && !HasUser(messages[..i]), url)
    decreases |messages|
  {
    var front := messages[..|messages| - 1];
    RequestMessagesLength(front, includeLiveImage, url);
    if i < |front| {
      RequestMessageAt(front, includeLiveImage, url, i);
      assert front[i] == messages[i] && front[..i] == messages[..i];
    }
  }

  /** A prefix holds a user message exactly when a shorter one does or the added message is one. */
  lemma HasUserSnoc(messages: seq<ChatMessage>, k: nat)
    requires k < |messages|
    ensures HasUser(messages[..k + 1]) <==> HasUser(messages[..k]) || messages[k].role == "user"
  {
    assert messages[..k + 1] == messages[..k] + [messages[k]];
  }

  /** Converting one more caller message appends its dict, with the image when it is the first user message. */
  lemma RequestMessagesSnoc(messages: seq<ChatMessage>, k: nat, includeLiveImage: Option<string>, url: Option<string>)
    requires k < |messages|
    ensures RequestMessages(messages[..k + 1], includeLiveImage, url)
            == RequestMessages(messages[..k], includeLiveImage, url)
               + [RequestMessage(messages[k], IncludesImage(includeLiveImage) && messages[k].role == "user" && !HasUser(messages[..k]), url)]
  {
    assert messages[..k + 1][..|messages[..k + 1]| - 1] == messages[..k];
  }

  /** One more caller message: its dict follows the others, and the image is attached exactly when no user message came before. */
  lemma ConversationStep(prompt: string, messages: seq<ChatMessage>, k: nat, includeLiveImage: Option<string>,
                         url: Option<string>, seen: bool, conversation: seq<JSON>, attach: bool)
    requires k < |messages| && seen == (IncludesImage(includeLiveImage) && HasUser(messages[..k]))
    requires conversation == [SystemMessage(prompt)] + RequestMessages(messages[..k], includeLiveImage, url)
    requires attach == (messages[k].role == "user" && !seen && IncludesImage(includeLiveImage))
    ensures conversation + [RequestMessage(messages[k], attach, url)]
            == [SystemMessage(prompt)] + RequestMessages(messages[..k + 1], includeLiveImage, url)
    ensures (seen || attach) == (IncludesImage(includeLiveImage) && HasUser(messages[..k + 1]))
  {
    HasUserSnoc(messages, k);
    RequestMessagesSnoc(messages, k, includeLiveImage, url);
    Seqs.AppendBehindHead(SystemMessage(prompt), RequestMessages(messages[..k], includeLiveImage, url),
                          RequestMessage(messages[k], attach, url), RequestMessages(messages[..k + 1], includeLiveImage, url));
  }

  /** The `for msg in body.messages` loop that follows the system message. */
  method BuildConversation(prompt: string, messages: seq<ChatMessage>, includeLiveImage: Option<string>, url: Option<string>)
    returns (conversation: seq<JSON>)
    ensures conversation == [SystemMessage(prompt)] + RequestMessages(messages, includeLiveImage, url)
  {
    conversation := [SystemMessage(prompt)];
    var firstUserMessageSeen := false;
    for k := 0 to |messages|
      invariant conversation == [SystemMessage(prompt)] + RequestMessages(messages[..k], includeLiveImage, url)
      invariant firstUserMessageSeen == (IncludesImage(includeLiveImage) && HasUser(messages[..k]))
    {
      var msg := messages[k];
      var attach := msg.role == "user" && !firstUserMessageSeen && IncludesImage(includeLiveImage);
      ConversationStep(prompt, messages, k, includeLiveImage, url, firstUserMessageSeen, conversation, attach);
      if attach {
        firstUserMessageSeen := true;
      }
      conversation := conversation + [RequestMessage(msg, attach, url)];
    }
    assert messages[..|messages|] == messages;
  }

  /**
   * One caller message as sent: its role, its `tool_call_id` when truthy,
   * and as content either its text or, when it gets the live image and a
   * frame URL was obtained, the text and image block.
   */
  lemma RequestMessageFields(m: ChatMessage, attach: bool, url: Option<string>)
    ensures var d := RequestMessage(m, attach, url);
      && Get(d, "role") == Some(Str(m.role))
      && Get(d, "content") == Some(if attach && url.Some? && url.value != "" then ImageContent(m.content, url.value) else Str(m.content))
      && (Has(d, "tool_call_id") <==> m.toolCallId.Some? && m.toolCallId.value != "")
  {
  }

  /**
   * The live image block appears on at most one caller message: the first
   * user-role one, and only when a live image was asked for and a frame URL
   * was obtained; every other message keeps its text content.
   */
  lemma ImageOnFirstUserOnly(messages: seq<ChatMessage>, includeLiveImage: Option<string>, url: Option<string>, i: nat)
    requires i < |messages|
    ensures |RequestMessages(messages, includeLiveImage, url)| == |messages|
    ensures var d := RequestMessages(messages, includeLiveImage, url)[i];
      var attach := IncludesImage(includeLiveImage) && messages[i].role == "user" && !HasUser(messages[..i]);
      && Get(d, "role") == Some(Str(messages[i].role))
      && Get(d, "content") == Some(if attach && url.Some? && url.value != "" then ImageContent(messages[i].content, url.value)
                                   else Str(messages[i].content))
  {
    RequestMessagesEach(messages, includeLiveImage, url);
    RequestMessageFields(messages[i], IncludesImage(includeLiveImage) && messages[i].role == "user" && !HasUser(messages[..i]), url);
  }

  // ---------------------------------------------------------------------
  // the endpoint

  /**
   * What `chat_completion` reads of the running system: whether a GenAI
   * client is bound, the current UTC date and time strings, the camera
   * configs and states, and the oracles of the tools.
   */
  datatype Host = Host(clientBound: bool, date: string, time: string, live: LiveEnv,
                       grab: string -> Option<string>, parseIso: string -> Option<real>, events: EventsQuery,
                       render: JSON -> string, c: Codec, repr: JSON -> string)

  /** The tool executor the loop uses: `_execute_tool_internal` with the caller's cameras. */
  function ToolsOf(host: Host, allowed: seq<string>): Executor {
    (name: JSON, arguments: JSON) =>
      ExecuteToolInternal(name, arguments, allowed, host.live, host.parseIso, host.events, host.c, host.render, host.repr)
  }

  /** The frame URL for the live image, when one is asked for. */
  function FrameUrl(host: Host, allowed: seq<string>, includeLiveImage: Option<string>): Option<string> {
    if IncludesImage(includeLiveImage) then LiveFrameUrl(includeLiveImage.value, allowed, host.live, host.grab) else None
  }

  /** The conversation the loop starts from. */
  function InitialConversation(body: ChatCompletionRequest, host: Host, allowed: seq<string>): seq<JSON> {
    var prompt := SystemPrompt(host.date, host.time, CamerasSection(CameraLines(allowed, host.live.cameras)),
                               LiveImageNote(body.includeLiveImage));
    [SystemMessage(prompt)] + RequestMessages(body.messages, body.includeLiveImage, FrameUrl(host, allowed, body.includeLiveImage))
  }

  /**
   * `chat_completion`: 400 when no client is bound; otherwise the tool loop
   * from the initial conversation, bounded by `max_tool_iterations`.
   */
  method ChatCompletion(body: ChatCompletionRequest, host: Host, allowed: seq<string>, p: Provider)
    returns (outcome: Outcome, conversation: seq<JSON>, iterations: nat, providerCalls: nat)
    ensures !host.clientBound ==> outcome == NotConfigured && providerCalls == 0
    ensures host.clientBound ==>
      LoopResult(outcome, conversation, iterations, providerCalls)
      == Loop(p, ToolsOf(host, allowed), host.c, host.repr, InitialConversation(body, host, allowed), 0, 0, body.maxToolIterations)
  {
    if !host.clientBound {
      return NotConfigured, [], 0, 0;
    }
    var lines := CollectCameraLines(allowed, host.live.cameras);
    var prompt := SystemPrompt(host.date, host.time, CamerasSection(lines), LiveImageNote(body.includeLiveImage));
    var url := FrameUrl(host, allowed, body.includeLiveImage);
    var init := BuildConversation(prompt, body.messages, body.includeLiveImage, url);
    outcome, conversation, iterations, providerCalls :=
      RunToolLoop(init, body.maxToolIterations, p, ToolsOf(host, allowed), host.c, host.repr);
  }

  // ---------------------------------------------------------------------
  // the request model as written

  /**
   * The handler's answers as written: one of its own outcomes, or an
   * exception that escapes it, which the web framework turns into a bare 500.
   */
  datatype AnswerAsWritten = Answered(outcome: Outcome) | Escaped(exception: string)

  /**
   * `chat_completion` against the request model as written: the model
   * declares only `messages` and `max_tool_iterations`, so reading
   * `body.include_live_image` when the prompt is built raises before the
   * `try` that guards the tool loop. A bound client never reaches the
   * provider; only the unconfigured answer comes out intact.
   */
  function ChatCompletionAsWritten(messages: seq<ChatMessage>, maxToolIterations: int, host: Host): (r: AnswerAsWritten)
    ensures r.Answered? <==> !host.clientBound
    ensures r.Answered? ==> r.outcome == NotConfigured
  {
    if !host.clientBound then Answered(NotConfigured)
    else Escaped("AttributeError: 'ChatCompletionRequest' object has no attribute 'include_live_image'")
  }

  /**
   * The discrepancy: for every valid request with a bound client, the
   * handler as written escapes with an exception, while the corrected
   * endpoint, which reads `include_live_image` as an optional field, runs
   * the tool loop and never answers "not configured".
   */
  lemma LiveImageFieldMissingAsWritten(body: ChatCompletionRequest, host: Host, allowed: seq<string>, p: Provider)
    requires ValidRequest(body) && host.clientBound
    ensures ChatCompletionAsWritten(body.messages, body.maxToolIterations, host).Escaped?
    ensures !Loop(p, ToolsOf(host, allowed), host.c, host.repr, InitialConversation(body, host, allowed), 0, 0,
                  body.maxToolIterations).outcome.NotConfigured?
  {
    CompletionBounds(body, host, allowed, p);
  }

  /**
   * For a valid request the provider is called at most
   * `max_tool_iterations` (at most 10) times, the system message stays first
   * and the caller's messages follow it unchanged in order, and a bound
   * client never answers "not configured".
   */
  lemma CompletionBounds(body: ChatCompletionRequest, host: Host, allowed: seq<string>, p: Provider)
    requires ValidRequest(body) && host.clientBound
    ensures var init := InitialConversation(body, host, allowed);
      var res := Loop(p, ToolsOf(host, allowed), host.c, host.repr, init, 0, 0, body.maxToolIterations);
      && res.providerCalls <= body.maxToolIterations <= 10
      && res.iterations <= body.maxToolIterations
      && !res.outcome.NotConfigured?
      && |init| == |body.messages| + 1 <= |res.conversation|
      && res.conversation[0] == init[0]
      && Get(res.conversation[0], "role") == Some(Str("system"))
  {
    var init := InitialConversation(body, host, allowed);
    RequestMessagesEach(body.messages, body.includeLiveImage, FrameUrl(host, allowed, body.includeLiveImage));
    LoopWithBounds(p, TurnOf(ToolsOf(host, allowed), host.c, host.repr), ClosingOf(host.c), init, init, 0, body.maxToolIterations);
    var res := Loop(p, ToolsOf(host, allowed), host.c, host.repr, init, 0, 0, body.maxToolIterations);
    assert res.conversation[..|init|] == init;
    assert res.conversation[0] == res.conversation[..|init|][0];
  }
}
