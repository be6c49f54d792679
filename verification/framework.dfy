/** The evaluation framework's value objects that the REST mock adapter
    consumes and produces. The framework itself is not part of this model:
    its behaviour enters only through the `Hooks` the adapter is handed. */
module Framework {
  import opened Wrappers
  import opened Json

  datatype Role = System | User | Assistant | Tool

  /** The wire name of a role. */
  function RoleName(r: Role): string {
    match r
    case System => "system"
    case User => "user"
    case Assistant => "assistant"
    case Tool => "tool"
  }

  /** The role a wire name stands for, if any. */
  function RoleOf(name: string): (r: Option<Role>)
    ensures forall role :: r == Some(role) <==> RoleName(role) == name
  {
    if name == "system" then Some(System)
    else if name == "user" then Some(User)
    else if name == "assistant" then Some(Assistant)
    else if name == "tool" then Some(Tool)
    else None
  }

  /** A message's content: plain text, or a list of content parts (text,
      images, ...) whose rendering belongs to the framework. */
  datatype Content = TextContent(text: string) | PartsContent(parts: seq<Json>)

  datatype ChatMessage = ChatMessage(role: Role, content: Content)

  /** A callable the model may invoke; `parameters` is its JSON schema. */
  datatype ToolInfo = ToolInfo(name: string, description: string, parameters: Json)

  /** The tool-choice policy as it reaches the adapter: absent, a mode string
      (`"auto"`, `"none"`, ...), a plain dict, or the framework's named-function
      selector object (which is not a dict). */
  datatype ToolChoice =
    | NoChoice
    | ModeChoice(mode: string)
    | DictChoice(fields: seq<Field>)
    | FunctionChoice(name: string)

  /** Generation parameters; `None` means unset. */
  datatype GenerateConfig = GenerateConfig(
    temperature: Option<real>,
    maxTokens: Option<int>,
    topP: Option<real>,
    topK: Option<int>,
    stopSeqs: Option<seq<string>>,
    seed: Option<int>)

  /** The framework's closed set of stop reasons. */
  datatype StopReason = Stop | MaxTokens | ModelLength | ToolCalls | ContentFilter | Unknown

  /** A tool call parsed from a response. Fields hold the JSON values found
      there (the framework's own validation of them is not modelled). */
  datatype ToolCall = ToolCall(id: Json, functionName: Json, arguments: Json, kind: Json)

  datatype AssistantMessage = AssistantMessage(
    content: Json,
    model: Json,
    source: string,
    toolCalls: Option<seq<ToolCall>>)

  datatype Choice = Choice(message: AssistantMessage, stopReason: StopReason)

  datatype Usage = Usage(inputTokens: Json, outputTokens: Json, totalTokens: Json)

  datatype ModelOutput = ModelOutput(
    model: Json,
    choices: seq<Choice>,
    usage: Option<Usage>,
    error: Option<string>)

  /** The request/response pair recorded for observability. */
  datatype ModelCall = ModelCall(request: Json, response: Json)

  /** `ModelOutput.from_content`: a single assistant choice carrying `content`. */
  function FromContent(model: string, content: string, stopReason: StopReason, error: Option<string>): ModelOutput {
    ModelOutput(
      JStr(model),
      [Choice(AssistantMessage(JStr(content), JStr(model), "generate", None), stopReason)],
      None,
      error)
  }

  /** Framework behaviour the adapter calls but does not define: the text
      accessor of a message, `as_stop_reason`, and Python's `str(ex)` of the
      runtime error a malformed response raises. */
  datatype Hooks = Hooks(
    text: ChatMessage -> string,
    asStopReason: Json -> StopReason,
    describe: TypeFault -> string)
}
