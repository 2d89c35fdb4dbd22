/**
 * What the GenAI provider adapters share: the config entry a client is built
 * from, the `tool_choice` mapping of the OpenAI-compatible APIs, the derived
 * finish reason, content stripping, and the events a streaming call yields.
 */
module ProviderCommon {
  import opened Wrappers
  import opened Json
  import opened Text
  import opened GenaiUtils

  /** `GenAIRoleEnum`. */
  datatype Role = Tools | Vision | Embeddings

  /** The roles an entry gets when it lists none: embeddings, vision and tools. */
  const DefaultRoles: seq<Role> := [Embeddings, Vision, Tools]

  /** One `genai` config entry (`GenAIConfig`); `provider` is the provider name, when set. */
  datatype GenAIConfig = GenAIConfig(apiKey: Option<string>, baseUrl: Option<string>, model: string,
                                     provider: Option<string>, roles: seq<Role>,
                                     providerOptions: JSON, runtimeOptions: JSON)

  /** The entry a bare `GenAIConfig()` produces. */
  function DefaultConfig(): (c: GenAIConfig)
    ensures c.model == "gpt-4o" && c.provider.None? && c.roles == [Embeddings, Vision, Tools]
    ensures c.providerOptions == Empty && c.runtimeOptions == Empty
  {
    GenAIConfig(None, None, "gpt-4o", None, DefaultRoles, Empty, Empty)
  }

  /**
   * The `tool_choice` the OpenAI-compatible adapters send: "none", "auto"
   * and "required" pass through, anything else (or nothing) sends none.
   */
  function OpenAIToolChoice(choice: Option<string>): (r: Option<string>)
    ensures r.Some? <==> choice.Some? && (choice.value == "none" || choice.value == "auto" || choice.value == "required")
    ensures r.Some? ==> r == choice
  {
    if choice.Some? && (choice.value == "none" || choice.value == "auto" || choice.value == "required") then choice
    else None
  }

  /** The finish reason derived when the provider gives none: calls, else content, else an error. */
  function DerivedFinishReason(hasCalls: bool, hasContent: bool): (r: string)
    ensures r == "tool_calls" <==> hasCalls
    ensures r == "stop" <==> !hasCalls && hasContent
    ensures r == "error" <==> !hasCalls && !hasContent
  {
    if hasCalls then "tool_calls" else if hasContent then "stop" else "error"
  }

  /** Truthy content stripped, falsy content None: a blank but non-empty text strips to "". */
  function StripIfTruthy(content: Option<string>): (r: Option<string>)
    ensures r.None? <==> content.None? || content.value == ""
    ensures r.Some? ==> r.value == Strip(content.value)
  {
    if content.Some? && content.value != "" then Some(Strip(content.value)) else None
  }

  /** The stripped concatenation of the parts, None when it is empty. */
  function JoinedContent(parts: seq<string>): (r: Option<string>)
    ensures r.None? <==> Strip(Join(parts, "")) == ""
    ensures r.Some? ==> r.value == Strip(Join(parts, "")) && r.value != ""
  {
    var full := Strip(Join(parts, ""));
    if full == "" then None else Some(full)
  }

  /** `int(v)` for the option values the adapters read; anything else raises. */
  function IntOf(v: JSON): (r: Result<int>)
    ensures v.Int? ==> r == Ok(v.i)
    ensures v.Bool? ==> r == Ok(if v.b then 1 else 0)
    ensures v.Null? || v.Arr? || v.Obj? ==> r.Err?
  {
    match v
    case Int(i) => Ok(i)
    case Bool(b) => Ok(if b then 1 else 0)
    case Float(x) => Ok(if x >= 0.0 then x.Floor else -((-x).Floor))
    case Str(s) => if ParseInt(s).Some? then Ok(ParseInt(s).value) else Err("ValueError: invalid literal for int()")
    case _ => Err("TypeError: int() argument must be a string or a number")
  }

  /**
   * What a streaming `chat_with_tools_stream` yields: content deltas, then
   * one final message. A delta is text, except that the llama.cpp adapter
   * passes on whatever truthy `content` value a chunk carries (`ValueDelta`).
   */
  datatype StreamEvent = ContentDelta(text: string) | ValueDelta(value: JSON) | Message(reply: Reply)

  /** A finished stream: the deltas so far followed by the message. */
  predicate EndsWithMessage(events: seq<StreamEvent>) {
    events != [] && events[|events| - 1].Message? && forall i :: 0 <= i < |events| - 1 ==> !events[i].Message?
  }

  /**
   * What iterating a response stream delivered: its chunks in order, and
   * whether the iteration then raised instead of ending.
   */
  datatype Streamed<T> = Streamed(chunks: seq<T>, raised: bool)

  /** A tool call being assembled from stream fragments: id, name and the argument text so far. */
  datatype Slot = Slot(id: JSON, name: JSON, arguments: string)

  /** A dict of slots keyed by stream index or by name: the keys in insertion order, and the map. */
  datatype Slots<K(==)> = Slots(order: seq<K>, at: map<K, Slot>)

  /** Each key listed once, and the listed keys are exactly the map's. */
  ghost predicate SlotsValid<K>(s: Slots<K>) {
    && (forall i :: 0 <= i < |s.order| ==> s.order[i] in s.at)
    && (forall k :: k in s.at ==> k in s.order)
    && (forall i, j :: 0 <= i < j < |s.order| ==> s.order[i] != s.order[j])
  }

  /** `d[k] = slot`: an existing key keeps its place, a new key goes last. */
  function PutSlot<K(==)>(s: Slots<K>, k: K, slot: Slot): (r: Slots<K>)
    ensures r.at == s.at[k := slot]
    ensures k in s.at ==> r.order == s.order
    ensures k !in s.at ==> r.order == s.order + [k]
  {
    Slots(if k in s.at then s.order else s.order + [k], s.at[k := slot])
  }

  /** Putting a slot keeps each key listed once. */
  lemma PutSlotKeepsValid<K>(s: Slots<K>, k: K, slot: Slot)
    requires SlotsValid(s)
    ensures SlotsValid(PutSlot(s, k, slot))
  {
    var r := PutSlot(s, k, slot);
    if k !in s.at {
      forall i, j | 0 <= i < j < |r.order| ensures r.order[i] != r.order[j] {
        if j == |s.order| { assert r.order[i] == s.order[i] && r.order[i] in s.at; }
        else { assert r.order[i] == s.order[i] && r.order[j] == s.order[j]; }
      }
    }
  }

  /** Putting under the same key twice is putting the second slot once. */
  lemma PutSlotTwice<K>(s: Slots<K>, k: K, a: Slot, b: Slot)
    ensures PutSlot(PutSlot(s, k, a), k, b) == PutSlot(s, k, b)
  {
  }

  /** The slot under `k`; a key that is not there reads as an empty slot. */
  function SlotAt<K(==)>(s: Slots<K>, k: K): Slot {
    if k in s.at then s.at[k] else Slot(Str(""), Str(""), "")
  }

  /** A Python truthy optional string. */
  predicate Given(s: Option<string>) {
    s.Some? && s.value != ""
  }

  /** An accumulated slot as a call: the argument text decoded, or kept as the raw string when it does not decode. */
  function DecodedOrRaw(t: Slot, c: Codec): ToolCall {
    ToolCall(t.id, t.name, match c.loads(t.arguments) case Some(v) => v case None => Str(t.arguments))
  }

  /** The slots under the given keys, in that order, as calls. */
  function CallsAt<K(==)>(slots: Slots<K>, keys: seq<K>, c: Codec): (r: seq<ToolCall>)
    ensures |r| == |keys|
  {
    if keys == [] then [] else CallsAt(slots, keys[..|keys| - 1], c) + [DecodedOrRaw(SlotAt(slots, keys[|keys| - 1]), c)]
  }

  /** The conversion loop over `tool_calls_by_index.values()`, in insertion order. */
  method SlotsInOrder<K(==)>(slots: Slots<K>, c: Codec) returns (r: seq<ToolCall>)
    ensures r == CallsAt(slots, slots.order, c)
  {
    r := [];
    var i := 0;
    while i < |slots.order|
      invariant 0 <= i <= |slots.order|
      invariant r == CallsAt(slots, slots.order[..i], c)
    {
      var tc := SlotAt(slots, slots.order[i]);
      var parsedArgs := match c.loads(tc.arguments) case Some(v) => v case None => Str(tc.arguments);
      assert slots.order[..i + 1][..i] == slots.order[..i];
      r := r + [ToolCall(tc.id, tc.name, parsedArgs)];
      i := i + 1;
    }
    assert slots.order[..i] == slots.order;
  }

  /** The `i`-th streamed call is the `i`-th slot opened; text that does not decode stays a string. */
  lemma {:induction false} CallsAtEach<K>(slots: Slots<K>, keys: seq<K>, c: Codec)
    ensures forall i :: 0 <= i < |keys| ==>
      && CallsAt(slots, keys, c)[i].id == SlotAt(slots, keys[i]).id
      && CallsAt(slots, keys, c)[i].name == SlotAt(slots, keys[i]).name
      && (c.loads(SlotAt(slots, keys[i]).arguments).None? ==> CallsAt(slots, keys, c)[i].arguments == Str(SlotAt(slots, keys[i]).arguments))
  {
    if keys != [] {
      CallsAtEach(slots, keys[..|keys| - 1], c);
    }
  }
}
