/** The REST mock model adapter: it turns a chat-generation request into the
    JSON body of a POST to `/v1/chat/completions`, turns the JSON that comes
    back into a `ModelOutput`, converts every provider failure into an output
    carrying the error, and classifies failures for the framework's retry
    loop. The HTTP exchange itself is an input (`Exchange`). */
module MockRest {
  import opened Wrappers
  import opened Json
  import opened Framework
  import Decimal

  const BaseUrlVar := "MOCKREST_BASE_URL"
  const ApiKeyVar := "MOCKREST_API_KEY"
  const CompletionsPath := "/v1/chat/completions"
  const DefaultConnectionKey := "mockrest"
  const MissingBaseUrl := "MockRestAPI requires a base_url. Set it via the base_url parameter or the MOCKREST_BASE_URL environment variable."

  /** The adapter's configuration, fixed at construction. */
  datatype Adapter = Adapter(
    modelName: string,
    baseUrl: Option<string>,
    apiKey: Option<string>,
    timeout: real,
    modelArgs: seq<Field>)

  /** Python truthiness of `str | None`. */
  predicate Given(s: Option<string>) {
    s.Some? && |s.value| > 0
  }

  /** `os.environ.get(name, None)` over an explicit environment. */
  function EnvGet(env: map<string, string>, name: string): Option<string> {
    if name in env then Some(env[name]) else None
  }

  // ---------------------------------------------------------------------------
  // Construction
  // ---------------------------------------------------------------------------

  /** The constructor: an explicit base URL wins, then `MOCKREST_BASE_URL`;
      with neither (or only empty ones) construction fails. The API key is
      resolved the same way from `MOCKREST_API_KEY` but may stay unset. */
  function Create(
    modelName: string, baseUrl: Option<string>, apiKey: Option<string>,
    env: map<string, string>, timeout: real, modelArgs: seq<Field>): (r: Result<Adapter, string>)
    ensures r.Success? <==> Given(baseUrl) || Given(EnvGet(env, BaseUrlVar))
    ensures r.Failure? ==> r.error == MissingBaseUrl
    ensures r.Success? ==> Given(r.value.baseUrl)
    ensures r.Success? && Given(baseUrl) ==> r.value.baseUrl == baseUrl
    ensures r.Success? && !Given(baseUrl) ==> r.value.baseUrl == Some(env[BaseUrlVar])
    ensures r.Success? && Given(apiKey) ==> r.value.apiKey == apiKey
    ensures r.Success? && !Given(apiKey) ==> r.value.apiKey == EnvGet(env, ApiKeyVar)
    ensures r.Success? ==> r.value.modelName == modelName && r.value.modelArgs == modelArgs && r.value.timeout == timeout
  {
    var url := if Given(baseUrl) then baseUrl else EnvGet(env, BaseUrlVar);
    if !Given(url) then Failure(MissingBaseUrl)
    else
      var key := if Given(apiKey) then apiKey else EnvGet(env, ApiKeyVar);
      Success(Adapter(modelName, url, key, timeout, modelArgs))
  }

  /** `connection_key`: the base URL, or a fixed literal when there is none. */
  function ConnectionKey(a: Adapter): (k: string)
    ensures Given(a.baseUrl) ==> k == a.baseUrl.value
    ensures !Given(a.baseUrl) ==> k == DefaultConnectionKey
  {
    if Given(a.baseUrl) then a.baseUrl.value else DefaultConnectionKey
  }

  /** A constructed adapter always has its base URL as connection key: the
      fallback literal is never reached, and two adapters share a key exactly
      when they share a base URL. */
  lemma CreatedConnectionKey(
    modelName: string, baseUrl: Option<string>, apiKey: Option<string>,
    env: map<string, string>, timeout: real, modelArgs: seq<Field>)
    requires Create(modelName, baseUrl, apiKey, env, timeout, modelArgs).Success?
    ensures var a := Create(modelName, baseUrl, apiKey, env, timeout, modelArgs).value;
      ConnectionKey(a) == (if Given(baseUrl) then baseUrl.value else env[BaseUrlVar])
  {
  }

  // ---------------------------------------------------------------------------
  // Headers
  // ---------------------------------------------------------------------------

  /** `_build_headers`: always a JSON content type; a bearer token exactly
      when an API key is set and non-empty; nothing else. */
  function BuildHeaders(a: Adapter): (h: map<string, string>)
    ensures "Content-Type" in h && h["Content-Type"] == "application/json"
    ensures "Authorization" in h <==> Given(a.apiKey)
    ensures "Authorization" in h ==> h["Authorization"] == "Bearer " + a.apiKey.value
    ensures h.Keys <= {"Content-Type", "Authorization"}
  {
    var base := map["Content-Type" := "application/json"];
    if Given(a.apiKey) then base["Authorization" := "Bearer " + a.apiKey.value] else base
  }

  /** The server side of the `Authorization` header: the token after the
      `Bearer ` scheme. */
  function BearerToken(value: string): Option<string> {
    if |value| >= 7 && value[..7] == "Bearer " then Some(value[7..]) else None
  }

  /** The server reads back exactly the configured key from the header. */
  lemma HeaderCarriesKey(a: Adapter)
    requires Given(a.apiKey)
    ensures BearerToken(BuildHeaders(a)["Authorization"]) == a.apiKey
  {
    var v := BuildHeaders(a)["Authorization"];
    assert v[..7] == "Bearer ";
    assert v[7..] == a.apiKey.value;
  }

  // ---------------------------------------------------------------------------
  // Request body
  // ---------------------------------------------------------------------------

  /** One message on the wire: `{role, content}`. */
  function MessageJson(m: ChatMessage, text: ChatMessage -> string): Json {
    JObj([Field("role", JStr(RoleName(m.role))), Field("content", JStr(text(m)))])
  }

  function MessagesJson(input: seq<ChatMessage>, text: ChatMessage -> string): (r: seq<Json>)
    ensures |r| == |input|
    ensures forall i | 0 <= i < |input| :: r[i] == MessageJson(input[i], text)
  {
    seq(|input|, i requires 0 <= i < |input| => MessageJson(input[i], text))
  }

  /** One tool on the wire: `{type: "function", function: {name, description, parameters}}`. */
  function ToolJson(t: ToolInfo): Json {
    JObj([
      Field("type", JStr("function")),
      Field("function", JObj([
        Field("name", JStr(t.name)),
        Field("description", JStr(t.description)),
        Field("parameters", t.parameters)]))])
  }

  function ToolsJson(tools: seq<ToolInfo>): (r: seq<Json>)
    ensures |r| == |tools|
    ensures forall i | 0 <= i < |tools| :: r[i] == ToolJson(tools[i])
  {
    seq(|tools|, i requires 0 <= i < |tools| => ToolJson(tools[i]))
  }

  /** The `tool_choice` value sent: a string or a dict goes through as is;
      no choice, or a selector of any other type, sends nothing. */
  function ToolChoiceJson(tc: ToolChoice): Option<Json> {
    match tc
    case ModeChoice(mode) => Some(JStr(mode))
    case DictChoice(fields) => Some(JObj(fields))
    case _ => None
  }

  function IntParam(o: Option<int>): Option<Json> {
    if o.Some? then Some(JInt(o.value)) else None
  }

  function FloatParam(o: Option<real>): Option<Json> {
    if o.Some? then Some(JFloat(o.value)) else None
  }

  function StringsJson(ss: seq<string>): (r: seq<Json>)
    ensures |r| == |ss|
    ensures forall i | 0 <= i < |ss| :: r[i] == JStr(ss[i])
  {
    seq(|ss|, i requires 0 <= i < |ss| => JStr(ss[i]))
  }

  function StopParam(o: Option<seq<string>>): Option<Json> {
    if o.Some? then Some(JArr(StringsJson(o.value))) else None
  }

  function ToolsParam(tools: seq<ToolInfo>): Option<Json> {
    if |tools| > 0 then Some(JArr(ToolsJson(tools))) else None
  }


  /** Lines 251-284: the optional part of the body, in insertion order:
      `tools` and `tool_choice` when given, then each generation parameter
      when it is set. */
  function OptionalEntries(tools: seq<ToolInfo>, tc: ToolChoice, cfg: GenerateConfig): (es: seq<Entry>)
    ensures |es| == |OptionalKeys|
    ensures forall i | 0 <= i < |es| :: es[i].key == OptionalKeys[i]
  {
    [ Entry("tools", ToolsParam(tools)),
      Entry("tool_choice", ToolChoiceJson(tc)),
      Entry("temperature", FloatParam(cfg.temperature)),
      Entry("max_tokens", IntParam(cfg.maxTokens)),
      Entry("top_p", FloatParam(cfg.topP)),
      Entry("top_k", IntParam(cfg.topK)),
      Entry("stop", StopParam(cfg.stopSeqs)),
      Entry("seed", IntParam(cfg.seed)) ]
  }

  const OptionalKeys: seq<string> :=
    ["tools", "tool_choice", "temperature", "max_tokens", "top_p", "top_k", "stop", "seed"]

  /** The body before the extra arguments: `model`, `messages`, then the
      optional entries. */
  function StructuredFields(
    a: Adapter, input: seq<ChatMessage>, tools: seq<ToolInfo>, tc: ToolChoice,
    cfg: GenerateConfig, text: ChatMessage -> string): seq<Field>
  {
    PutEach([Field("model", JStr(a.modelName)), Field("messages", JArr(MessagesJson(input, text)))],
            OptionalEntries(tools, tc, cfg))
  }

  /** `_build_request`: the structured fields, then the constructor's extra
      arguments merged over them. */
  function BuildRequest(
    a: Adapter, input: seq<ChatMessage>, tools: seq<ToolInfo>, tc: ToolChoice,
    cfg: GenerateConfig, text: ChatMessage -> string): Json
  {
    JObj(Merge(StructuredFields(a, input, tools, tc, cfg, text), a.modelArgs))
  }

  /** No two optional entries share a key, and none is `model` or `messages`. */
  lemma OptionalKeysDistinct()
    ensures forall i, j | 0 <= i < j < |OptionalKeys| :: OptionalKeys[i] != OptionalKeys[j]
    ensures forall i | 0 <= i < |OptionalKeys| :: OptionalKeys[i] != "model" && OptionalKeys[i] != "messages"
  {
  }

  /** Each optional key of the structured part holds its entry's value, and
      is absent when that value is `None`. */
  lemma StructuredOptional(
    a: Adapter, input: seq<ChatMessage>, tools: seq<ToolInfo>, tc: ToolChoice,
    cfg: GenerateConfig, text: ChatMessage -> string, i: nat)
    requires i < |OptionalKeys|
    ensures Get(StructuredFields(a, input, tools, tc, cfg, text), OptionalKeys[i]) == OptionalEntries(tools, tc, cfg)[i].value
  {
    var base := [Field("model", JStr(a.modelName)), Field("messages", JArr(MessagesJson(input, text)))];
    var es := OptionalEntries(tools, tc, cfg);
    OptionalKeysDistinct();
    PutEachGet(base, es, i);
    assert OptionalKeys[i] !in KeySet(base);
  }

  /** `model` and `messages` of the structured part are the adapter's model
      name and the converted input. */
  lemma StructuredModelAndMessages(
    a: Adapter, input: seq<ChatMessage>, tools: seq<ToolInfo>, tc: ToolChoice,
    cfg: GenerateConfig, text: ChatMessage -> string)
    ensures var fs := StructuredFields(a, input, tools, tc, cfg, text);
      && Get(fs, "model") == Some(JStr(a.modelName))
      && Get(fs, "messages") == Some(JArr(MessagesJson(input, text)))
  {
    var base := [Field("model", JStr(a.modelName)), Field("messages", JArr(MessagesJson(input, text)))];
    var es := OptionalEntries(tools, tc, cfg);
    OptionalKeysDistinct();
    PutEachOther(base, es, "model");
    PutEachOther(base, es, "messages");
    IndexOfFirst(base, "messages", 1);
  }

  /** A key that is neither `model`, `messages` nor optional is absent from
      the structured part. */
  lemma StructuredOthers(
    a: Adapter, input: seq<ChatMessage>, tools: seq<ToolInfo>, tc: ToolChoice,
    cfg: GenerateConfig, text: ChatMessage -> string, k: string)
    requires k != "model" && k != "messages" && k !in OptionalKeys
    ensures Get(StructuredFields(a, input, tools, tc, cfg, text), k) == None
  {
    var base := [Field("model", JStr(a.modelName)), Field("messages", JArr(MessagesJson(input, text)))];
    PutEachOther(base, OptionalEntries(tools, tc, cfg), k);
    assert k !in KeySet(base);
  }

  /** The body is a dict; `model` and `messages` open it (an extra argument
      of the same name replaces the value in place, a new one is appended). */
  lemma RequestShape(
    a: Adapter, input: seq<ChatMessage>, tools: seq<ToolInfo>, tc: ToolChoice,
    cfg: GenerateConfig, text: ChatMessage -> string)
    ensures var body := BuildRequest(a, input, tools, tc, cfg, text);
      && body.JObj?
      && UniqueKeys(body.fields)
      && |body.fields| >= 2 && body.fields[0].key == "model" && body.fields[1].key == "messages"
  {
    var base := [Field("model", JStr(a.modelName)), Field("messages", JArr(MessagesJson(input, text)))];
    assert UniqueKeys(base);
    PutEachShape(base, OptionalEntries(tools, tc, cfg));
    MergeShape(StructuredFields(a, input, tools, tc, cfg, text), a.modelArgs);
  }

  /** What a key of the body holds: an extra argument's value when the
      constructor was given one under that key, the structured value
      otherwise. */
  lemma RequestGet(
    a: Adapter, input: seq<ChatMessage>, tools: seq<ToolInfo>, tc: ToolChoice,
    cfg: GenerateConfig, text: ChatMessage -> string, k: string)
    ensures Get(BuildRequest(a, input, tools, tc, cfg, text).fields, k) ==
      if k in KeySet(a.modelArgs) then LastGet(a.modelArgs, k)
      else Get(StructuredFields(a, input, tools, tc, cfg, text), k)
  {
    MergeGet(StructuredFields(a, input, tools, tc, cfg, text), a.modelArgs, k);
  }

  /** Extra arguments are merged last: each of their keys ends up with its
      extra value, even `model` or `messages`. */
  lemma ExtraArgsWin(
    a: Adapter, input: seq<ChatMessage>, tools: seq<ToolInfo>, tc: ToolChoice,
    cfg: GenerateConfig, text: ChatMessage -> string, k: string)
    requires UniqueKeys(a.modelArgs)
    requires k in KeySet(a.modelArgs)
    ensures Get(BuildRequest(a, input, tools, tc, cfg, text).fields, k) == Get(a.modelArgs, k)
  {
    RequestGet(a, input, tools, tc, cfg, text, k);
    LastGetUnique(a.modelArgs, k);
  }

  /** `model` is the adapter's model name and `messages` the converted
      input, one `{role, content}` per message in order, unless an extra
      argument replaces them. */
  lemma RequestModelAndMessages(
    a: Adapter, input: seq<ChatMessage>, tools: seq<ToolInfo>, tc: ToolChoice,
    cfg: GenerateConfig, text: ChatMessage -> string)
    ensures var body := BuildRequest(a, input, tools, tc, cfg, text).fields;
      && ("model" !in KeySet(a.modelArgs) ==> Get(body, "model") == Some(JStr(a.modelName)))
      && ("messages" !in KeySet(a.modelArgs) ==> Get(body, "messages") == Some(JArr(MessagesJson(input, text))))
  {
    StructuredModelAndMessages(a, input, tools, tc, cfg, text);
    RequestGet(a, input, tools, tc, cfg, text, "model");
    RequestGet(a, input, tools, tc, cfg, text, "messages");
  }

  /** `tools` is sent exactly when the tool list is non-empty, one entry per
      tool in order. */
  lemma RequestTools(
    a: Adapter, input: seq<ChatMessage>, tools: seq<ToolInfo>, tc: ToolChoice,
    cfg: GenerateConfig, text: ChatMessage -> string)
    requires "tools" !in KeySet(a.modelArgs)
    ensures var body := BuildRequest(a, input, tools, tc, cfg, text).fields;
      && (Get(body, "tools").Some? <==> |tools| > 0)
      && (|tools| > 0 ==> Get(body, "tools") == Some(JArr(ToolsJson(tools))))
  {
    StructuredOptional(a, input, tools, tc, cfg, text, 0);
    RequestGet(a, input, tools, tc, cfg, text, "tools");
  }

  /** `tool_choice` is sent exactly when the choice is a string or a dict,
      unchanged. */
  lemma RequestToolChoice(
    a: Adapter, input: seq<ChatMessage>, tools: seq<ToolInfo>, tc: ToolChoice,
    cfg: GenerateConfig, text: ChatMessage -> string)
    requires "tool_choice" !in KeySet(a.modelArgs)
    ensures var body := BuildRequest(a, input, tools, tc, cfg, text).fields;
      && (Get(body, "tool_choice").Some? <==> tc.ModeChoice? || tc.DictChoice?)
      && (tc.ModeChoice? ==> Get(body, "tool_choice") == Some(JStr(tc.mode)))
      && (tc.DictChoice? ==> Get(body, "tool_choice") == Some(JObj(tc.fields)))
  {
    StructuredOptional(a, input, tools, tc, cfg, text, 1);
    RequestGet(a, input, tools, tc, cfg, text, "tool_choice");
  }

  /** `temperature` and `top_p` are sent exactly when set, with the
      configured value (zero included). */
  lemma RequestFloatParameters(
    a: Adapter, input: seq<ChatMessage>, tools: seq<ToolInfo>, tc: ToolChoice,
    cfg: GenerateConfig, text: ChatMessage -> string)
    ensures var body := BuildRequest(a, input, tools, tc, cfg, text).fields;
      && ("temperature" !in KeySet(a.modelArgs) ==>
            Get(body, "temperature") == if cfg.temperature.Some? then Some(JFloat(cfg.temperature.value)) else None)
      && ("top_p" !in KeySet(a.modelArgs) ==>
            Get(body, "top_p") == if cfg.topP.Some? then Some(JFloat(cfg.topP.value)) else None)
  {
    StructuredOptional(a, input, tools, tc, cfg, text, 2);
    StructuredOptional(a, input, tools, tc, cfg, text, 4);
    RequestGet(a, input, tools, tc, cfg, text, "temperature");
    RequestGet(a, input, tools, tc, cfg, text, "top_p");
  }

  /** `max_tokens`, `top_k` and `seed` are sent exactly when set, with the
      configured value (zero included). */
  lemma RequestIntParameters(
    a: Adapter, input: seq<ChatMessage>, tools: seq<ToolInfo>, tc: ToolChoice,
    cfg: GenerateConfig, text: ChatMessage -> string)
    ensures var body := BuildRequest(a, input, tools, tc, cfg, text).fields;
      && ("max_tokens" !in KeySet(a.modelArgs) ==>
            Get(body, "max_tokens") == if cfg.maxTokens.Some? then Some(JInt(cfg.maxTokens.value)) else None)
      && ("top_k" !in KeySet(a.modelArgs) ==>
            Get(body, "top_k") == if cfg.topK.Some? then Some(JInt(cfg.topK.value)) else None)
      && ("seed" !in KeySet(a.modelArgs) ==>
            Get(body, "seed") == if cfg.seed.Some? then Some(JInt(cfg.seed.value)) else None)
  {
    StructuredOptional(a, input, tools, tc, cfg, text, 3);
    StructuredOptional(a, input, tools, tc, cfg, text, 5);
    StructuredOptional(a, input, tools, tc, cfg, text, 7);
    RequestGet(a, input, tools, tc, cfg, text, "max_tokens");
    RequestGet(a, input, tools, tc, cfg, text, "top_k");
    RequestGet(a, input, tools, tc, cfg, text, "seed");
  }

  /** `stop` is sent exactly when stop sequences are set (an empty list
      included), as a list of the same strings in order. */
  lemma RequestStop(
    a: Adapter, input: seq<ChatMessage>, tools: seq<ToolInfo>, tc: ToolChoice,
    cfg: GenerateConfig, text: ChatMessage -> string)
    requires "stop" !in KeySet(a.modelArgs)
    ensures var body := BuildRequest(a, input, tools, tc, cfg, text).fields;
      && (Get(body, "stop").Some? <==> cfg.stopSeqs.Some?)
      && (cfg.stopSeqs.Some? ==> Get(body, "stop") == Some(JArr(StringsJson(cfg.stopSeqs.value))))
  {
    StructuredOptional(a, input, tools, tc, cfg, text, 6);
    RequestGet(a, input, tools, tc, cfg, text, "stop");
  }

  /** Nothing beyond the structured keys and the extra arguments is sent. */
  lemma RequestNoOtherKeys(
    a: Adapter, input: seq<ChatMessage>, tools: seq<ToolInfo>, tc: ToolChoice,
    cfg: GenerateConfig, text: ChatMessage -> string, k: string)
    requires k != "model" && k != "messages" && k !in OptionalKeys
    requires k !in KeySet(a.modelArgs)
    ensures k !in KeySet(BuildRequest(a, input, tools, tc, cfg, text).fields)
  {
    StructuredOthers(a, input, tools, tc, cfg, text, k);
    RequestGet(a, input, tools, tc, cfg, text, k);
  }

  // ---------------------------------------------------------------------------
  // Response
  // ---------------------------------------------------------------------------

  /** A Python loop that parses every item in order and stops at the first
      item that raises. */
  function ParseEach<T>(items: seq<Json>, parse: Json -> Result<T, TypeFault>): (r: Result<seq<T>, TypeFault>)
    ensures r.Success? <==> forall i | 0 <= i < |items| :: parse(items[i]).Success?
    ensures r.Success? ==> |r.value| == |items|
    ensures r.Success? ==> forall i | 0 <= i < |items| :: r.value[i] == parse(items[i]).value
    ensures r.Failure? ==>
      exists i | 0 <= i < |items| :: parse(items[i]) == Failure(r.error) && forall j | 0 <= j < i :: parse(items[j]).Success?
    decreases |items|
  {
    if |items| == 0 then Success([])
    else match parse(items[0])
      case Failure(e) => Failure(e)
      case Success(head) =>
        match ParseEach(items[1..], parse)
        case Failure(e) =>
          ghost var i :| 0 <= i < |items[1..]| && parse(items[1..][i]) == Failure(e)
            && forall j | 0 <= j < i :: parse(items[1..][j]).Success?;
          assert parse(items[i + 1]) == Failure(e);
          Failure(e)
        case Success(tail) => Success([head] + tail)
  }

  /** When every item parses to the expected value, the loop yields exactly
      the expected values. */
  lemma ParseEachAll<T>(items: seq<Json>, parse: Json -> Result<T, TypeFault>, expected: seq<T>)
    requires |expected| == |items|
    requires forall i | 0 <= i < |items| :: parse(items[i]) == Success(expected[i])
    ensures ParseEach(items, parse) == Success(expected)
  {
    var r := ParseEach(items, parse);
    assert r.Success?;
    assert r.value == expected;
  }

  /** Lines 313-321: one tool call. A missing `id`, `name` or `type` reads
      as `""`, `""` and `"function"`, missing `arguments` as `{}`; the call
      and its `function` part must be dicts, or `.get` raises. */
  function ParseToolCall(tc: Json): (r: Result<ToolCall, TypeFault>)
    ensures r.Success? <==> tc.JObj? && GetOr(tc.fields, "function", JObj([])).JObj?
    ensures r.Failure? ==> r.error == NotADict(if tc.JObj? then GetOr(tc.fields, "function", JObj([])) else tc)
    ensures r.Success? ==>
      var fn := GetOr(tc.fields, "function", JObj([])).fields;
      && r.value.id == GetOr(tc.fields, "id", JStr(""))
      && r.value.functionName == GetOr(fn, "name", JStr(""))
      && r.value.arguments == GetOr(fn, "arguments", JObj([]))
      && r.value.kind == GetOr(tc.fields, "type", JStr("function"))
  {
    match tc
    case JObj(fields) =>
      var fn := GetOr(fields, "function", JObj([]));
      if !fn.JObj? then Failure(NotADict(fn))
      else Success(ToolCall(
        GetOr(fields, "id", JStr("")),
        GetOr(fn.fields, "name", JStr("")),
        GetOr(fn.fields, "arguments", JObj([])),
        GetOr(fields, "type", JStr("function"))))
    case _ => Failure(NotADict(tc))
  }

  /** The parsed tool calls of a message's `tool_calls` value: nothing when
      it is falsy, otherwise one call per entry (a truthy value that is not
      a list of dicts raises). */
  function ParseToolCalls(calls: Json): (r: Result<Option<seq<ToolCall>>, TypeFault>)
    ensures !Truthy(calls) ==> r == Success(None)
    ensures r.Success? && r.value.Some? ==>
      && calls.JArr?
      && |r.value.value| == |calls.items| > 0
      && forall i | 0 <= i < |calls.items| :: ParseToolCall(calls.items[i]) == Success(r.value.value[i])
    ensures Truthy(calls) && calls.JArr? ==>
      (r.Success? <==> forall i | 0 <= i < |calls.items| :: ParseToolCall(calls.items[i]).Success?)
    ensures Truthy(calls) && r.Success? ==> r.value.Some?
    ensures Truthy(calls) && !calls.JArr? ==> r.Failure?
  {
    if !Truthy(calls) then Success(None)
    else
      var items :- Iterate(calls);
      var parsed :- ParseEach(items, ParseToolCall);
      if calls.JArr? then Success(Some(parsed))
      else
        // A non-empty string or dict iterates as strings, and `.get` on a
        // string raises.
        assert false; Success(None)
  }

  /** Lines 295-334: one choice. Content defaults to `""` and the finish
      reason to `"stop"`; tool calls are attached exactly when the
      `tool_calls` value is truthy, and then every entry must parse. */
  function ParseChoice(c: Json, model: Json, hooks: Hooks): (r: Result<Choice, TypeFault>)
    ensures !c.JObj? ==> r == Failure(NotADict(c))
    ensures c.JObj? && !GetOr(c.fields, "message", JObj([])).JObj? ==>
      r == Failure(NotADict(GetOr(c.fields, "message", JObj([]))))
    ensures r.Success? ==>
      var message := GetOr(c.fields, "message", JObj([]));
      && message.JObj?
      && r.value.message.content == GetOr(message.fields, "content", JStr(""))
      && r.value.message.model == model
      && r.value.message.source == "generate"
      && r.value.stopReason == hooks.asStopReason(GetOr(c.fields, "finish_reason", JStr("stop")))
      && ParseToolCalls(GetOr(message.fields, "tool_calls", JArr([]))) == Success(r.value.message.toolCalls)
    ensures c.JObj? && GetOr(c.fields, "message", JObj([])).JObj? ==>
      (r.Success? <==> ParseToolCalls(GetOr(GetOr(c.fields, "message", JObj([])).fields, "tool_calls", JArr([]))).Success?)
  {
    match c
    case JObj(fields) =>
      var message := GetOr(fields, "message", JObj([]));
      if !message.JObj? then Failure(NotADict(message))
      else
        var content := GetOr(message.fields, "content", JStr(""));
        var finish := GetOr(fields, "finish_reason", JStr("stop"));
        var calls :- ParseToolCalls(GetOr(message.fields, "tool_calls", JArr([])));
        Success(Choice(AssistantMessage(content, model, "generate", calls), hooks.asStopReason(finish)))
    case _ => Failure(NotADict(c))
  }

  /** Lines 337-344: usage is absent when the `usage` value is missing, null
      or empty; otherwise each count defaults to 0. */
  function ParseUsage(u: Json): (r: Result<Option<Usage>, TypeFault>)
    ensures !Truthy(u) ==> r == Success(None)
    ensures Truthy(u) ==> (r.Success? <==> u.JObj?)
    ensures Truthy(u) && !u.JObj? ==> r == Failure(NotADict(u))
    ensures Truthy(u) && u.JObj? ==> r.Success? && r.value.Some?
    ensures r.Success? && r.value.Some? ==>
      && r.value.value.inputTokens == GetOr(u.fields, "prompt_tokens", JInt(0))
      && r.value.value.outputTokens == GetOr(u.fields, "completion_tokens", JInt(0))
      && r.value.value.totalTokens == GetOr(u.fields, "total_tokens", JInt(0))
  {
    if !Truthy(u) then Success(None)
    else match u
      case JObj(fields) =>
        Success(Some(Usage(
          GetOr(fields, "prompt_tokens", JInt(0)),
          GetOr(fields, "completion_tokens", JInt(0)),
          GetOr(fields, "total_tokens", JInt(0)))))
      case _ => Failure(NotADict(u))
  }

  /** `_parse_response`: every choice in order, the reported model (the
      adapter's own name when the response names none) and the usage. A
      response that is not shaped as the code expects raises, which the
      failure carries. */
  function ParseResponse(resp: Json, modelName: string, hooks: Hooks): (r: Result<ModelOutput, TypeFault>)
    ensures !resp.JObj? ==> r == Failure(NotADict(resp))
    ensures resp.JObj? ==>
      var model := GetOr(resp.fields, "model", JStr(modelName));
      var items := Iterate(GetOr(resp.fields, "choices", JArr([])));
      (r.Success? <==>
        && items.Success?
        && (forall i | 0 <= i < |items.value| :: ParseChoice(items.value[i], model, hooks).Success?)
        && ParseUsage(GetOr(resp.fields, "usage", JNull)).Success?)
    ensures r.Success? ==>
      var model := GetOr(resp.fields, "model", JStr(modelName));
      var items := Iterate(GetOr(resp.fields, "choices", JArr([])));
      && r.value.model == model
      && r.value.error.None?
      && items.Success?
      && |r.value.choices| == |items.value|
      && (forall i | 0 <= i < |items.value| :: ParseChoice(items.value[i], model, hooks) == Success(r.value.choices[i]))
      && ParseUsage(GetOr(resp.fields, "usage", JNull)) == Success(r.value.usage)
  {
    match resp
    case JObj(fields) =>
      var items :- Iterate(GetOr(fields, "choices", JArr([])));
      var model := GetOr(fields, "model", JStr(modelName));
      var parsed :- ParseEach(items, c => ParseChoice(c, model, hooks));
      var usage :- ParseUsage(GetOr(fields, "usage", JNull));
      Success(ModelOutput(model, parsed, usage, None))
    case _ => Failure(NotADict(resp))
  }

  // ---------------------------------------------------------------------------
  // The reply format, and what parsing it yields
  // ---------------------------------------------------------------------------

  /** A well-formed reply as the completions endpoint sends it:
      `{id, model, choices: [{index, message: {role, content, tool_calls?},
      finish_reason}], usage?}`. */
  datatype WireToolCall = WireToolCall(id: string, name: string, arguments: Json, kind: string)
  datatype WireChoice = WireChoice(content: string, finishReason: string, toolCalls: seq<WireToolCall>)
  datatype WireUsage = WireUsage(prompt: int, completion: int, total: int)
  datatype Reply = Reply(id: string, model: string, choices: seq<WireChoice>, usage: Option<WireUsage>)

  function ToolCallWire(t: WireToolCall): Json {
    JObj([
      Field("id", JStr(t.id)),
      Field("type", JStr(t.kind)),
      Field("function", JObj([Field("name", JStr(t.name)), Field("arguments", t.arguments)]))])
  }

  /** `tool_calls` is sent only when there are some. */
  function MessageWire(c: WireChoice): Json {
    var base := [Field("role", JStr("assistant")), Field("content", JStr(c.content))];
    if |c.toolCalls| == 0 then JObj(base)
    else JObj(base + [Field("tool_calls", JArr(seq(|c.toolCalls|, i requires 0 <= i < |c.toolCalls| => ToolCallWire(c.toolCalls[i]))))])
  }

  function ChoiceWire(index: nat, c: WireChoice): Json {
    JObj([
      Field("index", JInt(index)),
      Field("message", MessageWire(c)),
      Field("finish_reason", JStr(c.finishReason))])
  }

  function UsageWire(u: WireUsage): Json {
    JObj([
      Field("prompt_tokens", JInt(u.prompt)),
      Field("completion_tokens", JInt(u.completion)),
      Field("total_tokens", JInt(u.total))])
  }

  function ReplyJson(r: Reply): Json {
    var base := [Field("id", JStr(r.id)), Field("model", JStr(r.model)), Field("choices", JArr(ChoicesWire(r)))];
    if r.usage.None? then JObj(base) else JObj(base + [Field("usage", UsageWire(r.usage.value))])
  }

  /** What a reply means to the framework, stated without any JSON: each
      choice becomes an assistant message of the reply's model, tool calls
      attached when there are some, the finish reason normalised; usage
      counts map to input, output and total tokens. */
  function ToolCallOf(t: WireToolCall): ToolCall {
    ToolCall(JStr(t.id), JStr(t.name), t.arguments, JStr(t.kind))
  }

  function ToolCallsOf(calls: seq<WireToolCall>): Option<seq<ToolCall>> {
    if |calls| == 0 then None else Some(seq(|calls|, i requires 0 <= i < |calls| => ToolCallOf(calls[i])))
  }

  function ChoiceOf(c: WireChoice, model: string, hooks: Hooks): Choice {
    Choice(
      AssistantMessage(JStr(c.content), JStr(model), "generate", ToolCallsOf(c.toolCalls)),
      hooks.asStopReason(JStr(c.finishReason)))
  }

  function UsageOf(u: WireUsage): Usage {
    Usage(JInt(u.prompt), JInt(u.completion), JInt(u.total))
  }

  function OutputOf(r: Reply, hooks: Hooks): ModelOutput {
    ModelOutput(
      JStr(r.model),
      seq(|r.choices|, i requires 0 <= i < |r.choices| => ChoiceOf(r.choices[i], r.model, hooks)),
      if r.usage.Some? then Some(UsageOf(r.usage.value)) else None,
      None)
  }

  lemma ToolCallRoundTrip(t: WireToolCall)
    ensures ParseToolCall(ToolCallWire(t)) == Success(ToolCallOf(t))
  {
    var fields := ToolCallWire(t).fields;
    assert Get(fields, "id") == Some(JStr(t.id));
    IndexOfFirst(fields, "type", 1);
    IndexOfFirst(fields, "function", 2);
    var fn := fields[2].value.fields;
    assert Get(fn, "name") == Some(JStr(t.name));
    IndexOfFirst(fn, "arguments", 1);
  }

  lemma ToolCallsRoundTrip(c: WireChoice)
    ensures ParseToolCalls(GetOr(MessageWire(c).fields, "tool_calls", JArr([]))) == Success(ToolCallsOf(c.toolCalls))
  {
    var fields := MessageWire(c).fields;
    if |c.toolCalls| == 0 {
      assert "tool_calls" !in KeySet(fields);
    } else {
      IndexOfFirst(fields, "tool_calls", 2);
      var calls := fields[2].value;
      var expected := ToolCallsOf(c.toolCalls).value;
      forall i | 0 <= i < |calls.items| ensures ParseToolCall(calls.items[i]) == Success(expected[i]) {
        ToolCallRoundTrip(c.toolCalls[i]);
      }
      ParseEachAll(calls.items, ParseToolCall, expected);
      assert Truthy(calls) && Iterate(calls) == Success(calls.items);
    }
  }

  lemma ChoiceRoundTrip(index: nat, c: WireChoice, model: string, hooks: Hooks)
    ensures ParseChoice(ChoiceWire(index, c), JStr(model), hooks) == Success(ChoiceOf(c, model, hooks))
  {
    var fields := ChoiceWire(index, c).fields;
    IndexOfFirst(fields, "message", 1);
    IndexOfFirst(fields, "finish_reason", 2);
    var message := MessageWire(c).fields;
    IndexOfFirst(message, "content", 1);
    ToolCallsRoundTrip(c);
  }

  lemma UsageRoundTrip(u: WireUsage)
    ensures ParseUsage(UsageWire(u)) == Success(Some(UsageOf(u)))
  {
    var fields := UsageWire(u).fields;
    assert Get(fields, "prompt_tokens") == Some(JInt(u.prompt));
    IndexOfFirst(fields, "completion_tokens", 1);
    IndexOfFirst(fields, "total_tokens", 2);
  }

  /** The wire choices of a reply, in order. */
  function ChoicesWire(r: Reply): (items: seq<Json>)
    ensures |items| == |r.choices|
    ensures forall i | 0 <= i < |r.choices| :: items[i] == ChoiceWire(i, r.choices[i])
  {
    seq(|r.choices|, i requires 0 <= i < |r.choices| => ChoiceWire(i, r.choices[i]))
  }

  lemma ReplyLookup(r: Reply, modelName: string)
    ensures ReplyJson(r).JObj?
    ensures GetOr(ReplyJson(r).fields, "model", JStr(modelName)) == JStr(r.model)
    ensures GetOr(ReplyJson(r).fields, "choices", JArr([])) == JArr(ChoicesWire(r))
    ensures GetOr(ReplyJson(r).fields, "usage", JNull) == if r.usage.Some? then UsageWire(r.usage.value) else JNull
  {
    var fields := ReplyJson(r).fields;
    IndexOfFirst(fields, "model", 1);
    IndexOfFirst(fields, "choices", 2);
    assert fields[2].value.items == ChoicesWire(r);
    if r.usage.Some? {
      IndexOfFirst(fields, "usage", 3);
    } else {
      assert "usage" !in KeySet(fields);
    }
  }

  /** A response whose every part parses to the corresponding part of
      `expected` parses to `expected`. */
  lemma ParseResponseOf(resp: Json, modelName: string, hooks: Hooks, expected: ModelOutput)
    requires resp.JObj?
    requires expected.model == GetOr(resp.fields, "model", JStr(modelName))
    requires Iterate(GetOr(resp.fields, "choices", JArr([]))).Success?
    requires var items := Iterate(GetOr(resp.fields, "choices", JArr([]))).value;
      && |items| == |expected.choices|
      && forall i | 0 <= i < |items| :: ParseChoice(items[i], expected.model, hooks) == Success(expected.choices[i])
    requires ParseUsage(GetOr(resp.fields, "usage", JNull)) == Success(expected.usage)
    requires expected.error.None?
    ensures ParseResponse(resp, modelName, hooks) == Success(expected)
  {
    var out := ParseResponse(resp, modelName, hooks);
    var items := Iterate(GetOr(resp.fields, "choices", JArr([]))).value;
    assert out.Success?;
    forall i | 0 <= i < |items| ensures out.value.choices[i] == expected.choices[i] {
      assert ParseChoice(items[i], expected.model, hooks) == Success(out.value.choices[i]);
    }
    assert out.value.choices == expected.choices;
  }

  /** Each wire choice of a reply parses to its meaning. */
  lemma ChoicesRoundTrip(r: Reply, hooks: Hooks)
    ensures forall i | 0 <= i < |r.choices| ::
      ParseChoice(ChoicesWire(r)[i], JStr(r.model), hooks) == Success(OutputOf(r, hooks).choices[i])
  {
    forall i | 0 <= i < |r.choices|
      ensures ParseChoice(ChoicesWire(r)[i], JStr(r.model), hooks) == Success(OutputOf(r, hooks).choices[i])
    {
      ChoiceRoundTrip(i, r.choices[i], r.model, hooks);
    }
  }

  /** Parsing a well-formed reply gives exactly its meaning: every choice in
      order with its content, tool calls and finish reason, the reply's
      model, and its usage counts; no usage when the reply has none. */
  lemma ReplyRoundTrip(r: Reply, modelName: string, hooks: Hooks)
    ensures ParseResponse(ReplyJson(r), modelName, hooks) == Success(OutputOf(r, hooks))
  {
    ReplyLookup(r, modelName);
    ChoicesRoundTrip(r, hooks);
    if r.usage.Some? {
      UsageRoundTrip(r.usage.value);
    }
    ParseResponseOf(ReplyJson(r), modelName, hooks, OutputOf(r, hooks));
  }

  /** A tool call that carries no `id` is parsed with the empty string as
      its id, and missing `arguments` read as `{}`. */
  lemma MissingToolCallId(name: string)
    ensures var tc := JObj([Field("type", JStr("function")), Field("function", JObj([Field("name", JStr(name))]))]);
      ParseToolCall(tc) == Success(ToolCall(JStr(""), JStr(name), JObj([]), JStr("function")))
  {
    var fields := [Field("type", JStr("function")), Field("function", JObj([Field("name", JStr(name))]))];
    assert "id" !in KeySet(fields);
    IndexOfFirst(fields, "function", 1);
    assert "arguments" !in KeySet([Field("name", JStr(name))]);
  }

  // ---------------------------------------------------------------------------
  // Generation and its failures
  // ---------------------------------------------------------------------------

  /** A failure raised while talking to the endpoint: a non-2xx status with
      the response text, a transport failure (connection, timeout) with its
      message, or anything else (such as a body that is not JSON) with
      Python's `str(ex)`. */
  datatype ProviderError =
    | HttpStatusError(status: int, body: string)
    | TransportError(message: string)
    | OtherError(message: string)

  /** How the HTTP exchange ended: it raised, or it delivered a decoded JSON
      body with a success status. */
  datatype Exchange = Raised(error: ProviderError) | Received(body: Json)

  const HttpErrorPrefix := "HTTP error "
  const RequestErrorPrefix := "Request error: "
  const UnexpectedErrorPrefix := "Unexpected error: "

  /** The text an error is reported with. */
  function ErrorMessage(e: ProviderError): string {
    match e
    case HttpStatusError(status, body) => HttpErrorPrefix + Decimal.IntToString(status) + ": " + body
    case TransportError(message) => RequestErrorPrefix + message
    case OtherError(message) => UnexpectedErrorPrefix + message
  }

  /** The output an error becomes: one assistant choice whose content is the
      error text, stop reason `unknown`, and the same text as `error`. */
  function ErrorOutput(modelName: string, message: string): ModelOutput {
    FromContent(modelName, message, Unknown, Some(message))
  }

  /** The result of `generate`: the output and the request/response record. */
  datatype Generated = Generated(output: ModelOutput, call: ModelCall)

  /** `generate`: build the request, then turn the exchange into an output.
      Nothing is raised to the caller: every failure, a malformed success
      body included, becomes an output carrying the error. The recorded
      response is the decoded body when there was one and `{}` otherwise. */
  function Generate(
    a: Adapter, input: seq<ChatMessage>, tools: seq<ToolInfo>, tc: ToolChoice,
    cfg: GenerateConfig, hooks: Hooks, exchange: Exchange): (g: Generated)
    ensures g.call.request == BuildRequest(a, input, tools, tc, cfg, hooks.text)
    ensures g.call.response == if exchange.Received? then exchange.body else JObj([])
    ensures exchange.Raised? ==> g.output == ErrorOutput(a.modelName, ErrorMessage(exchange.error))
    ensures exchange.Received? ==>
      match ParseResponse(exchange.body, a.modelName, hooks)
      case Success(out) => g.output == out
      case Failure(fault) => g.output == ErrorOutput(a.modelName, ErrorMessage(OtherError(hooks.describe(fault))))
  {
    var request := BuildRequest(a, input, tools, tc, cfg, hooks.text);
    match exchange
    case Raised(e) => Generated(ErrorOutput(a.modelName, ErrorMessage(e)), ModelCall(request, JObj([])))
    case Received(body) =>
      match ParseResponse(body, a.modelName, hooks)
      case Success(out) => Generated(out, ModelCall(request, body))
      case Failure(fault) =>
        Generated(ErrorOutput(a.modelName, ErrorMessage(OtherError(hooks.describe(fault)))), ModelCall(request, body))
  }

  /** The output carries an error exactly when the exchange failed or its
      body could not be parsed; an error output is a single choice whose
      content is the error text, stop reason `unknown`. */
  lemma GenerateErrorIff(
    a: Adapter, input: seq<ChatMessage>, tools: seq<ToolInfo>, tc: ToolChoice,
    cfg: GenerateConfig, hooks: Hooks, exchange: Exchange)
    ensures var out := Generate(a, input, tools, tc, cfg, hooks, exchange).output;
      && (out.error.Some? <==> exchange.Raised? || ParseResponse(exchange.body, a.modelName, hooks).Failure?)
      && (out.error.Some? ==>
            && |out.choices| == 1
            && out.choices[0].message.content == JStr(out.error.value)
            && out.choices[0].stopReason == Unknown
            && out.usage.None?
            && out.model == JStr(a.modelName))
  {
  }

  /** A well-formed reply passes through `generate` as its meaning, with the
      body recorded. */
  lemma GenerateReply(
    a: Adapter, input: seq<ChatMessage>, tools: seq<ToolInfo>, tc: ToolChoice,
    cfg: GenerateConfig, hooks: Hooks, reply: Reply)
    ensures var g := Generate(a, input, tools, tc, cfg, hooks, Received(ReplyJson(reply)));
      && g.output == OutputOf(reply, hooks)
      && g.call.response == ReplyJson(reply)
  {
    ReplyRoundTrip(reply, a.modelName, hooks);
  }

  /** The first position of `c` in `s`, or `|s|`: the text before the first
      `c`. */
  function Before(s: string, c: char): (n: nat)
    ensures n <= |s|
    ensures forall i | 0 <= i < n :: s[i] != c
    ensures n < |s| ==> s[n] == c
    decreases |s|
  {
    if |s| == 0 || s[0] == c then 0 else 1 + Before(s[1..], c)
  }

  /** The status an HTTP error text reports: the number between the prefix
      and the first colon. */
  function ReadStatus(message: string): Option<int> {
    var p := |HttpErrorPrefix|;
    if |message| < p || message[..p] != HttpErrorPrefix then None
    else
      var rest := message[p..];
      var digits := rest[..Before(rest, ':')];
      if |digits| >= 1 && Decimal.AllDigits(if digits[0] == '-' then digits[1..] else digits)
      then Some(Decimal.ParseInt(digits)) else None
  }

  /** Rendered integers contain no colon. */
  lemma IntToStringNoColon(n: int)
    ensures forall i | 0 <= i < |Decimal.IntToString(n)| :: Decimal.IntToString(n)[i] != ':'
  {
    var s := Decimal.IntToString(n);
    Decimal.IntRoundTrip(n);
    forall i | 0 <= i < |s| ensures s[i] != ':' {
      if s[0] == '-' {
        if i > 0 {
          assert s[i] == s[1..][i - 1];
        }
      } else {
        assert Decimal.IsDigit(s[i]);
      }
    }
  }

  /** The status code of an HTTP error can be read back from the error
      text, whatever the response text after it. */
  lemma StatusReadBack(status: int, body: string)
    ensures ReadStatus(ErrorMessage(HttpStatusError(status, body))) == Some(status)
  {
    var code := Decimal.IntToString(status);
    var message := ErrorMessage(HttpStatusError(status, body));
    var p := |HttpErrorPrefix|;
    assert message[..p] == HttpErrorPrefix;
    var rest := message[p..];
    assert rest == code + ": " + body;
    IntToStringNoColon(status);
    assert rest[|code|] == ':';
    assert Before(rest, ':') == |code|;
    assert rest[..|code|] == code;
    Decimal.IntRoundTrip(status);
  }

  /** The three kinds of error text are told apart by their prefixes. */
  function ErrorKind(message: string): (k: nat)
    ensures k <= 3
  {
    if |message| >= |HttpErrorPrefix| && message[..|HttpErrorPrefix|] == HttpErrorPrefix then 1
    else if |message| >= |RequestErrorPrefix| && message[..|RequestErrorPrefix|] == RequestErrorPrefix then 2
    else if |message| >= |UnexpectedErrorPrefix| && message[..|UnexpectedErrorPrefix|] == UnexpectedErrorPrefix then 3
    else 0
  }

  lemma ErrorKindReadBack(e: ProviderError)
    ensures ErrorKind(ErrorMessage(e)) == match e
      case HttpStatusError(_, _) => 1
      case TransportError(_) => 2
      case OtherError(_) => 3
  {
    var m := ErrorMessage(e);
    match e
    case HttpStatusError(_, _) =>
      assert m[..|HttpErrorPrefix|] == HttpErrorPrefix;
    case TransportError(_) =>
      assert m[0] == 'R';
      assert m[..|RequestErrorPrefix|] == RequestErrorPrefix;
    case OtherError(_) =>
      assert m[0] == 'U';
      assert m[..|UnexpectedErrorPrefix|] == UnexpectedErrorPrefix;
  }

  // ---------------------------------------------------------------------------
  // Failure classification
  // ---------------------------------------------------------------------------

  /** `should_retry`: rate limiting (429), server errors (5xx and above) and
      transport failures are worth retrying; other statuses and any other
      failure are not. */
  function ShouldRetry(e: ProviderError): (b: bool)
    ensures e.HttpStatusError? ==> (b <==> e.status == 429 || e.status >= 500)
    ensures e.TransportError? ==> b
    ensures e.OtherError? ==> !b
  {
    match e
    case HttpStatusError(status, _) => status == 429 || status >= 500
    case TransportError(_) => true
    case OtherError(_) => false
  }

  /** `is_auth_failure`: exactly a 401 status. */
  function IsAuthFailure(e: ProviderError): (b: bool)
    ensures b <==> e.HttpStatusError? && e.status == 401
  {
    e.HttpStatusError? && e.status == 401
  }

  /** Client errors other than 429 are final, an authentication failure
      among them. */
  lemma ClientErrorsNotRetried(e: ProviderError)
    requires e.HttpStatusError? && 400 <= e.status < 500 && e.status != 429
    ensures !ShouldRetry(e)
    ensures IsAuthFailure(e) <==> e.status == 401
  {
  }

  /** A failure is never both retried and an authentication failure. */
  lemma AuthFailureNotRetried(e: ProviderError)
    ensures IsAuthFailure(e) ==> !ShouldRetry(e)
  {
  }
}
