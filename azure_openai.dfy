/**
 * The Azure OpenAI adapter. The API version and endpoint come out of the
 * configured base URL; the SDK's `create` is a parameter and its replies
 * are the OpenAI completion datatypes.
 */
module AzureOpenAI {
  import opened Wrappers
  import opened Json
  import opened Text
  import Seqs
  import opened GenaiUtils
  import opened ProviderCommon
  import OpenAI

  // ---------------------------------------------------------------------
  // `urlparse` and `parse_qs`, as far as the API-version check reads them

  /** The parts `urlparse` splits a URL into (path parameters stay in the path). */
  datatype Url = Url(scheme: string, netloc: string, path: string, query: string, fragment: string)

  /** The characters a URL scheme may contain. */
  predicate SchemeChar(ch: char) {
    IsLetter(ch) || IsDigit(ch) || ch == '+' || ch == '-' || ch == '.'
  }

  predicate IsColon(ch: char) { ch == ':' }
  predicate EndsNetloc(ch: char) { ch == '/' || ch == '?' || ch == '#' }
  predicate IsHash(ch: char) { ch == '#' }
  predicate IsQuestion(ch: char) { ch == '?' }
  predicate IsEquals(ch: char) { ch == '=' }

  /** A scheme is the text before the first ":" when it starts with a letter and holds only scheme characters. */
  predicate HasScheme(url: string) {
    var i := Find(url, IsColon);
    0 < i < |url| && IsLetter(url[0]) && forall j :: 0 <= j < i ==> SchemeChar(url[j])
  }

  /** The scheme, lower-cased, or "" when there is none. */
  function SchemeOf(url: string): string {
    if HasScheme(url) then Lower(url[..Find(url, IsColon)]) else ""
  }

  /** What follows the scheme's ":" (all of the URL when there is no scheme). */
  function AfterScheme(url: string): string {
    if HasScheme(url) then url[Find(url, IsColon) + 1..] else url
  }

  /** After "//", the network location runs up to the first "/", "?" or "#". */
  function NetlocOf(rest: string): (r: string)
    ensures forall j :: 0 <= j < |r| ==> !EndsNetloc(r[j])
  {
    if |rest| >= 2 && rest[..2] == "//" then rest[2..][..Find(rest[2..], EndsNetloc)] else ""
  }

  /** What follows the network location. */
  function AfterNetloc(rest: string): string {
    if |rest| >= 2 && rest[..2] == "//" then rest[2..][Find(rest[2..], EndsNetloc)..] else rest
  }

  /** The text before the first "#". */
  function BeforeFragment(rest: string): string {
    rest[..Find(rest, IsHash)]
  }

  /** The text after the first "#", or "". */
  function FragmentOf(rest: string): string {
    var h := Find(rest, IsHash);
    if h < |rest| then rest[h + 1..] else ""
  }

  /** The path: up to the first "?" of what precedes the fragment. */
  function PathOf(rest: string): string {
    var t := BeforeFragment(rest);
    t[..Find(t, IsQuestion)]
  }

  /** The query: after the first "?" of what precedes the fragment, or "". */
  function QueryOf(rest: string): string {
    var t := BeforeFragment(rest);
    var q := Find(t, IsQuestion);
    if q < |t| then t[q + 1..] else ""
  }

  /**
   * `urlsplit`: the scheme, then after "//" the network location, then the
   * fragment after the first "#" and the query after the first "?". An
   * unbalanced "[" or "]" in the network location raises ValueError.
   */
  function UrlSplit(url: string): (r: Result<Url>)
    ensures r.Ok? ==> forall j :: 0 <= j < |r.value.netloc| ==> !EndsNetloc(r.value.netloc[j])
    ensures r.Err? <==> ('[' in NetlocOf(AfterScheme(url))) != (']' in NetlocOf(AfterScheme(url)))
  {
    var rest := AfterScheme(url);
    var netloc := NetlocOf(rest);
    if ('[' in netloc) != (']' in netloc) then Err("ValueError: Invalid IPv6 URL")
    else
      var tail := AfterNetloc(rest);
      Ok(Url(SchemeOf(url), netloc, PathOf(tail), QueryOf(tail), FragmentOf(tail)))
  }

  /**
   * The first value `parse_qs` collects for `name`: pieces between "&",
   * each split at its first "="; pieces without "=" or with an empty value
   * are dropped, as `keep_blank_values=False` does.
   */
  function FirstValue(pieces: seq<string>, name: string): (r: Option<string>)
    ensures r.Some? ==> r.value != ""
  {
    if pieces == [] then None
    else
      var p := pieces[0];
      var e := Find(p, IsEquals);
      if e < |p| && p[..e] == name && p[e + 1..] != "" then Some(p[e + 1..])
      else FirstValue(pieces[1..], name)
  }

  /** The first value the query gives the parameter `name`, None when it has none. */
  function QueryParam(query: string, name: string): (r: Option<string>)
    ensures r.Some? ==> r.value != ""
  {
    if query == "" then None else FirstValue(Split(query, '&'), name)
  }

  // ---------------------------------------------------------------------
  // the client

  /** What `AzureOpenAI(...)` is built from. */
  datatype AzureProvider = AzureProvider(apiKey: Option<string>, apiVersion: string, endpoint: string)

  /**
   * `_init_provider`: None when the base URL does not parse or has no
   * non-empty api-version; otherwise the first api-version and the
   * endpoint `scheme://netloc/`. An unset base URL parses as empty.
   */
  function ProviderFor(config: GenAIConfig): (r: Option<AzureProvider>)
    ensures var url := UrlSplit(config.baseUrl.GetOr(""));
      && (r.Some? <==> url.Ok? && QueryParam(url.value.query, "api-version").Some?)
      && (r.Some? ==> r.value.apiKey == config.apiKey
                      && r.value.apiVersion == QueryParam(url.value.query, "api-version").value
                      && r.value.apiVersion != ""
                      && r.value.endpoint == url.value.scheme + "://" + url.value.netloc + "/")
  {
    var url := UrlSplit(config.baseUrl.GetOr(""));
    if url.Err? then None
    else match QueryParam(url.value.query, "api-version")
      case None => None
      case Some(version) => Some(AzureProvider(config.apiKey, version, url.value.scheme + "://" + url.value.netloc + "/"))
  }

  /** The scheme of `scheme://…` is the lower-cased scheme, and the network location follows it. */
  lemma TypicalScheme(scheme: string, rest: string)
    requires scheme != [] && IsLetter(scheme[0]) && forall j :: 0 <= j < |scheme| ==> SchemeChar(scheme[j])
    ensures SchemeOf(scheme + ":" + rest) == Lower(scheme) && AfterScheme(scheme + ":" + rest) == rest
  {
    var url := scheme + ":" + rest;
    var n := |scheme|;
    SchemeColon(scheme, rest);
    assert url[..n] == scheme;
    assert HasScheme(url) by {
      forall j | 0 <= j < n
        ensures SchemeChar(url[j])
      {
        assert url[j] == scheme[j];
      }
    }
    assert url[n + 1..] == rest;
  }

  /** The first ":" after a scheme is the one that ends it. */
  lemma SchemeColon(scheme: string, rest: string)
    requires forall j :: 0 <= j < |scheme| ==> SchemeChar(scheme[j])
    ensures Find(scheme + ":" + rest, IsColon) == |scheme|
  {
    assert scheme + ":" + rest == scheme + (":" + rest);
    forall j | 0 <= j < |scheme|
      ensures !IsColon(scheme[j])
    {
      assert SchemeChar(scheme[j]);
    }
    FindAfter(scheme, ":" + rest, IsColon);
    assert Find(":" + rest, IsColon) == 0;
  }

  /** After "//host", the host is the network location when the rest starts with "/" or "?". */
  lemma TypicalNetloc(host: string, tail: string)
    requires forall j :: 0 <= j < |host| ==> !EndsNetloc(host[j])
    requires tail != [] && (tail[0] == '/' || tail[0] == '?')
    ensures NetlocOf("//" + host + tail) == host && AfterNetloc("//" + host + tail) == tail
  {
    var rest := "//" + host + tail;
    assert rest[..2] == "//";
    assert rest[2..] == host + tail;
    FindAfter(host, tail, EndsNetloc);
    assert (host + tail)[..|host|] == host;
    assert (host + tail)[|host|..] == tail;
  }

  /** Without "#", the query of `path?query` is `query` when the path has no "?". */
  lemma TypicalQuery(path: string, query: string)
    requires forall j :: 0 <= j < |path| ==> path[j] != '?' && path[j] != '#'
    requires '#' !in query
    ensures QueryOf(path + "?" + query) == query
  {
    var t := path + "?" + query;
    assert forall j :: 0 <= j < |t| ==> !IsHash(t[j]) by {
      forall j | 0 <= j < |t| ensures !IsHash(t[j]) {
        if j < |path| { assert t[j] == path[j]; } else if j > |path| { assert t[j] == query[j - |path| - 1]; }
      }
    }
    assert BeforeFragment(t) == t;
    assert t == path + ("?" + query);
    FindAfter(path, "?" + query, IsQuestion);
    assert t[|path| + 1..] == query;
  }

  /** `api-version=v` alone in the query gives `v`. */
  lemma TypicalVersion(version: string)
    requires version != [] && '&' !in version
    ensures QueryParam("api-version=" + version, "api-version") == Some(version)
  {
    var query := "api-version=" + version;
    SplitNoSep(query, '&');
    assert query == "api-version" + ("=" + version);
    FindAfter("api-version", "=" + version, IsEquals);
    assert query[..|"api-version"|] == "api-version";
    assert query[|"api-version"| + 1..] == version;
  }

  lemma UrlPieces(scheme: string, host: string, path: string, version: string)
    ensures scheme + "://" + host + path + "?api-version=" + version
         == scheme + ":" + ("//" + host + (path + "?" + ("api-version=" + version)))
  {
    assert "://" == ":" + "//";
    assert "?api-version=" == "?" + "api-version=";
  }

  lemma NoFragmentInQuery(version: string)
    requires '#' !in version
    ensures '#' !in "api-version=" + version
  {
    var q := "api-version=" + version;
    forall j | 0 <= j < |q|
      ensures q[j] != '#'
    {
      if j >= 12 {
        assert q[j] == version[j - 12];
      }
    }
  }

  /** `scheme://host/path?api-version=v` splits into that scheme (lower-cased), host and query. */
  lemma TypicalUrlSplit(scheme: string, host: string, path: string, version: string)
    requires scheme != [] && IsLetter(scheme[0]) && forall j :: 0 <= j < |scheme| ==> SchemeChar(scheme[j])
    requires forall j :: 0 <= j < |host| ==> !EndsNetloc(host[j]) && host[j] != '[' && host[j] != ']'
    requires path == [] || path[0] == '/'
    requires forall j :: 0 <= j < |path| ==> path[j] != '?' && path[j] != '#'
    requires '#' !in version
    ensures var u := UrlSplit(scheme + "://" + host + path + "?api-version=" + version);
      u.Ok? && u.value.scheme == Lower(scheme) && u.value.netloc == host && u.value.query == "api-version=" + version
  {
    var query := "api-version=" + version;
    var tail := path + "?" + query;
    var rest := "//" + host + tail;
    var url := scheme + "://" + host + path + "?api-version=" + version;
    UrlPieces(scheme, host, path, version);
    assert url == scheme + ":" + rest;
    TypicalScheme(scheme, rest);
    assert tail[0] == (if path == [] then '?' else '/');
    TypicalNetloc(host, tail);
    assert '[' !in host && ']' !in host;
    NoFragmentInQuery(version);
    TypicalQuery(path, query);
    assert AfterScheme(url) == rest && NetlocOf(rest) == host && AfterNetloc(rest) == tail;
  }

  /**
   * A deployment URL of the usual shape `scheme://host/path?api-version=v`
   * yields version `v` and endpoint `scheme://host/`, the scheme lower-cased.
   */
  lemma TypicalUrl(config: GenAIConfig, scheme: string, host: string, path: string, version: string)
    requires scheme != [] && IsLetter(scheme[0]) && forall j :: 0 <= j < |scheme| ==> SchemeChar(scheme[j])
    requires forall j :: 0 <= j < |host| ==> !EndsNetloc(host[j]) && host[j] != '[' && host[j] != ']'
    requires path == [] || path[0] == '/'
    requires forall j :: 0 <= j < |path| ==> path[j] != '?' && path[j] != '#'
    requires version != [] && '&' !in version && '#' !in version
    requires config.baseUrl == Some(scheme + "://" + host + path + "?api-version=" + version)
    ensures ProviderFor(config) == Some(AzureProvider(config.apiKey, version, Lower(scheme) + "://" + host + "/"))
  {
    TypicalUrlSplit(scheme, host, path, version);
    TypicalVersion(version);
  }

  /** `get_context_size`: Azure deployments are taken to have a 128000-token window. */
  const ContextSize: int := 128000

  /** An image as raw bytes. */
  type Bytes = seq<bv8>

  /** The prompt as the first content part. */
  function TextPart(prompt: string): JSON {
    Obj(["type", "text"], map["type" := Str("text"), "text" := Str(prompt)])
  }

  /** One base64 image as a low-detail JPEG data URL part. */
  function ImagePart(encoded: string): JSON {
    Obj(["type", "image_url"],
        map["type" := Str("image_url"),
            "image_url" := Obj(["url", "detail"], map["url" := Str("data:image/jpeg;base64," + encoded), "detail" := Str("low")])])
  }

  /** The user message content `_send` builds: the prompt first, then one part per image in order. */
  function UserContent(prompt: string, encoded: seq<string>): seq<JSON> {
    [TextPart(prompt)] + Seqs.Map(ImagePart, encoded)
  }

  /** The content lists the prompt text first, then one part per image. */
  lemma UserContentShape(prompt: string, encoded: seq<string>)
    ensures var r := UserContent(prompt, encoded);
      && |r| == 1 + |encoded|
      && Get(r[0], "type") == Some(Str("text")) && Get(r[0], "text") == Some(Str(prompt))
  {
    TextPartShape(prompt);
  }

  /** The part after the prompt for image `i` is a low-detail part whose URL is the JPEG data URL of its base64. */
  lemma UserContentImage(prompt: string, encoded: seq<string>, i: nat)
    requires i < |encoded|
    ensures var r := UserContent(prompt, encoded);
      && |r| == 1 + |encoded|
      && Get(r[i + 1], "type") == Some(Str("image_url"))
      && Path(r[i + 1], ["image_url", "url"]) == Some(Str("data:image/jpeg;base64," + encoded[i]))
      && Path(r[i + 1], ["image_url", "detail"]) == Some(Str("low"))
  {
    assert UserContent(prompt, encoded)[i + 1] == ImagePart(encoded[i]);
    ImagePartShape(encoded[i]);
  }

  lemma TextPartShape(prompt: string)
    ensures Get(TextPart(prompt), "type") == Some(Str("text")) && Get(TextPart(prompt), "text") == Some(Str(prompt))
  {
    assert "type"[1] != "text"[1];
  }

  lemma ImagePartShape(encoded: string)
    ensures Get(ImagePart(encoded), "type") == Some(Str("image_url"))
    ensures Path(ImagePart(encoded), ["image_url", "url"]) == Some(Str("data:image/jpeg;base64," + encoded))
    ensures Path(ImagePart(encoded), ["image_url", "detail"]) == Some(Str("low"))
  {
    assert ["image_url", "url"][1..] == ["url"];
    assert ["image_url", "detail"][1..] == ["detail"];
  }

  /**
   * The `create` keyword arguments of `_send`: model, the one user message
   * and the timeout, then the runtime options; a runtime option repeating
   * one of the three raises TypeError (None here).
   */
  function SendRequest(model: string, content: seq<JSON>, timeout: int, runtimeOptions: JSON): (r: Option<JSON>)
    requires runtimeOptions.Obj?
    ensures r.None? <==> Has(runtimeOptions, "model") || Has(runtimeOptions, "messages") || Has(runtimeOptions, "timeout")
    ensures r.Some? ==> Get(r.value, "model") == Some(Str(model)) && Get(r.value, "timeout") == Some(Int(timeout))
    ensures r.Some? ==> forall k :: Has(runtimeOptions, k) ==> Get(r.value, k) == Get(runtimeOptions, k)
  {
    if Has(runtimeOptions, "model") || Has(runtimeOptions, "messages") || Has(runtimeOptions, "timeout") then None
    else
      var message := Obj(["role", "content"], map["role" := Str("user"), "content" := Arr(content)]);
      Some(Update(Obj(["model", "messages", "timeout"],
                      map["model" := Str(model), "messages" := Arr([message]), "timeout" := Int(timeout)]),
                  runtimeOptions))
  }

  /**
   * What `_send` returns once `create` answered: None when nothing was sent,
   * `create` raised, or there are no choices; otherwise the first choice's
   * stripped content. A choice without content makes `.strip()` raise
   * outside the guarded block (`Err`).
   */
  function SendOutcome(sent: Option<JSON>, create: JSON -> Result<OpenAI.Completion>): (r: Result<Option<string>>)
    ensures r.Err? <==> sent.Some? && create(sent.value).Ok? && create(sent.value).value.choices != []
                        && create(sent.value).value.choices[0].message.content.None?
    ensures r.Ok? && r.value.Some? ==>
      && sent.Some? && create(sent.value).Ok? && create(sent.value).value.choices != []
      && create(sent.value).value.choices[0].message.content.Some?
      && r.value.value == Strip(create(sent.value).value.choices[0].message.content.value)
  {
    if sent.None? then Ok(None)
    else match create(sent.value)
      case Err(_) => Ok(None)
      case Ok(result) =>
        if result.choices == [] then Ok(None)
        else match result.choices[0].message.content
          case None => Err("AttributeError: 'NoneType' object has no attribute 'strip'")
          case Some(text) => Ok(Some(Strip(text)))
  }

  /** The `chat_with_tools` request: model, messages and timeout, then tools and the mapped choice only when tools are given. */
  function RequestParams(model: string, messages: seq<JSON>, tools: seq<JSON>, toolChoice: Option<string>, timeout: int): (r: JSON)
    ensures r.Obj?
  {
    var p := Obj(["model", "messages", "timeout"],
                 map["model" := Str(model), "messages" := Arr(messages), "timeout" := Int(timeout)]);
    if tools == [] then p
    else
      var p := Set(p, "tools", Arr(tools));
      if OpenAIToolChoice(toolChoice).Some? then Set(p, "tool_choice", Str(toolChoice.value)) else p
  }

  /**
   * Nothing but model, messages and timeout is sent without tools; tools
   * are sent when given, and tool_choice only with tools and only as
   * "none", "auto" or "required". No provider option is merged in.
   */
  lemma RequestParamsFields(model: string, messages: seq<JSON>, tools: seq<JSON>, toolChoice: Option<string>, timeout: int)
    ensures var p := RequestParams(model, messages, tools, toolChoice, timeout);
      && Get(p, "model") == Some(Str(model)) && Get(p, "messages") == Some(Arr(messages))
      && Get(p, "timeout") == Some(Int(timeout))
      && (Has(p, "tools") <==> tools != [])
      && (Has(p, "tool_choice") <==> tools != [] && OpenAIToolChoice(toolChoice).Some?)
      && (Has(p, "tool_choice") ==> Get(p, "tool_choice") == Some(Str(toolChoice.value)))
      && (forall k :: Has(p, k) ==> k in {"model", "messages", "timeout", "tools", "tool_choice"})
  {
  }

  /** The Azure `OpenAIClient`: its config, the request timeout, and the SDK client when the URL checks out. */
  class AzureOpenAIClient {
    const config: GenAIConfig
    const timeout: int
    const provider: Option<AzureProvider>

    constructor (config: GenAIConfig, timeout: int)
      ensures this.config == config && this.timeout == timeout && provider == ProviderFor(config)
    {
      this.config := config;
      this.timeout := timeout;
      provider := ProviderFor(config);
    }

    /**
     * `_send`: images are base64-encoded with `b64`. Without a client, the
     * call raises inside the guarded block and nothing is sent.
     */
    method Send(prompt: string, images: seq<Bytes>, b64: Bytes -> string, create: JSON -> Result<OpenAI.Completion>)
      returns (r: Result<Option<string>>, ghost sent: Option<JSON>)
      requires config.runtimeOptions.Obj?
      ensures provider.None? ==> sent.None? && r == Ok(None)
      ensures provider.Some? ==> sent == SendRequest(config.model, UserContent(prompt, Seqs.Map(b64, images)), timeout, config.runtimeOptions)
      ensures r == SendOutcome(sent, create)
    {
      var encodedImages := Seqs.Map(b64, images);
      sent := None;
      if provider.None? {
        return Ok(None), sent;
      }
      var request := SendRequest(config.model, UserContent(prompt, encodedImages), timeout, config.runtimeOptions);
      sent := request;
      if request.None? {
        return Ok(None), sent;
      }
      var result := create(request.value);
      if result.Err? {
        return Ok(None), sent;
      }
      if |result.value.choices| > 0 {
        var content := result.value.choices[0].message.content;
        if content.None? {
          return Err("AttributeError: 'NoneType' object has no attribute 'strip'"), sent;
        }
        return Ok(Some(Strip(content.value))), sent;
      }
      r := Ok(None);
    }

    /**
     * `chat_with_tools`: without a client the call raises inside the
     * guarded block; `create`'s `Err` is any exception. Both give the error
     * reply.
     */
    method ChatWithTools(messages: seq<JSON>, tools: seq<JSON>, toolChoice: Option<string>,
                         create: JSON -> Result<Option<OpenAI.Completion>>, c: Codec)
      returns (r: Reply, ghost sent: Option<JSON>)
      ensures provider.None? ==> r == ErrorReply && sent.None?
      ensures provider.Some? ==>
        && sent == Some(RequestParams(config.model, messages, tools, toolChoice, timeout))
        && r == if create(sent.value).Err? then ErrorReply else OpenAI.CompletionReply(create(sent.value).value, c)
    {
      sent := None;
      if provider.None? {
        return ErrorReply, sent;
      }
      var requestParams := RequestParams(config.model, messages, tools, toolChoice, timeout);
      sent := Some(requestParams);
      var result := create(requestParams);
      if result.Err? || result.value.None? || |result.value.value.choices| == 0 {
        return ErrorReply, sent;
      }
      var choice := result.value.value.choices[0];
      var message := choice.message;
      var content := if Given(message.content) then Some(Strip(message.content.value)) else None;
      var toolCalls: Option<seq<ToolCall>> := None;
      if message.toolCalls != [] {
        var calls := OpenAI.ConvertToolCalls(message.toolCalls, c);
        toolCalls := Some(calls);
      }
      var finishReason := "error";
      if Given(choice.finishReason) {
        finishReason := choice.finishReason.value;
      } else if toolCalls.Some? && toolCalls.value != [] {
        finishReason := "tool_calls";
      } else if content.Some? && content.value != "" {
        finishReason := "stop";
      }
      r := Reply(content, toolCalls, Some(finishReason));
    }
  }
}
