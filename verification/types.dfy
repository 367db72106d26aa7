/** Request and response records of the Messages API (src/types.rs): content
    blocks, messages, tools, tool choice, the request record and its
    builders. */
module Types {
  import opened Base
  import opened Json

  /** An IEEE-754 single-precision value, kept as its bit pattern; the model
      never computes with it. */
  datatype F32 = F32(bits: bv32)

  datatype Role = User | Assistant

  datatype CacheType = Ephemeral

  datatype CacheControl = CacheControl(cacheType: CacheType)

  /** `CacheControl::ephemeral()`. */
  function EphemeralCache(): (c: CacheControl)
    ensures c.cacheType == Ephemeral
  {
    CacheControl(Ephemeral)
  }

  datatype CitationConfig = CitationConfig(enabled: bool)

  /** A citation location in a response. */
  datatype Citation = Citation(
    citationType: string,
    source: string,
    title: Option<string>,
    citedText: string,
    searchResultIndex: usize,
    startBlockIndex: usize,
    endBlockIndex: usize)

  /** Text block inside a search result; `blockType` is always "text" in practice. */
  datatype TextBlock = TextBlock(blockType: string, text: string)

  datatype ImageSource =
    | Base64Image(mediaType: string, data: string)
    | UrlImage(url: string)
    | FileImage(fileId: string)

  datatype DocumentSource =
    | FileDocument(fileId: string)
    | TextDocument(mediaType: string, data: string)

  /** One block of message content. */
  datatype ContentBlock =
    | Text(text: string, cacheControl: Option<CacheControl>, citations: Option<seq<Citation>>)
    | Image(imageSource: ImageSource, cacheControl: Option<CacheControl>)
    | Document(documentSource: DocumentSource, title: Option<string>, context: Option<string>,
               citationConfig: Option<CitationConfig>, cacheControl: Option<CacheControl>)
    | ToolUse(id: string, name: string, input: Json, cacheControl: Option<CacheControl>)
    | ToolResult(toolUseId: string, content: Option<string>, isError: Option<bool>)
    | Thinking(thinking: string, signature: Option<string>)
    | RedactedThinking(data: string)
    | SearchResult(source: string, resultTitle: string, searchContent: seq<TextBlock>,
                   citationConfig: Option<CitationConfig>, cacheControl: Option<CacheControl>)

  datatype Message = Message(role: Role, content: seq<ContentBlock>)

  /** A plain text block with neither cache control nor citations. */
  predicate IsPlainText(b: ContentBlock, text: string)
  {
    b == Text(text, None, None)
  }

  /** `Message::user`. */
  function UserMessage(text: string): (m: Message)
    ensures m.role == User
    ensures |m.content| == 1 && IsPlainText(m.content[0], text)
  {
    Message(User, [Text(text, None, None)])
  }

  /** `Message::assistant`. */
  function AssistantMessage(text: string): (m: Message)
    ensures m.role == Assistant
    ensures |m.content| == 1 && IsPlainText(m.content[0], text)
  {
    Message(Assistant, [Text(text, None, None)])
  }

  /** `Message::tool_result`. */
  function ToolResultMessage(toolUseId: string, content: string): (m: Message)
    ensures m.role == User && |m.content| == 1
    ensures m.content[0].ToolResult?
    ensures m.content[0].toolUseId == toolUseId
    ensures m.content[0].content == Some(content)
    ensures m.content[0].isError.None?
  {
    Message(User, [ToolResult(toolUseId, Some(content), None)])
  }

  datatype SystemBlock = SystemBlock(blockType: string, text: string, cacheControl: Option<CacheControl>)

  /** The system prompt: a bare string or a list of blocks. */
  datatype SystemPrompt = SystemString(prompt: string) | Blocks(blocks: seq<SystemBlock>)

  /** A tool definition. */
  datatype Tool = Tool(
    name: string,
    description: string,
    inputSchema: Json,
    disableUserInput: Option<bool>,
    inputExamples: Option<seq<Json>>,
    cacheControl: Option<CacheControl>)

  datatype ToolChoice = Auto | Any | ToolNamed(name: string) | NoTools

  /** `ToolChoice::auto`, `any`, `tool` and `none`. */
  function ChooseAuto(): (c: ToolChoice)
    ensures c.Auto?
  {
    Auto
  }

  function ChooseAny(): (c: ToolChoice)
    ensures c.Any?
  {
    Any
  }

  function ChooseTool(name: string): (c: ToolChoice)
    ensures c.ToolNamed? && c.name == name
  {
    ToolNamed(name)
  }

  function ChooseNone(): (c: ToolChoice)
    ensures c.NoTools?
  {
    NoTools
  }

  datatype Usage = Usage(
    inputTokens: u32,
    outputTokens: u32,
    cacheCreationInputTokens: Option<u32>,
    cacheReadInputTokens: Option<u32>)

  datatype ThinkingConfig = Enabled(budgetTokens: u32) | Disabled

  datatype EffortLevel = High | Medium | Low

  datatype OutputConfig = OutputConfig(effort: Option<EffortLevel>)

  datatype StopReason = EndTurn | MaxTokens | StopSequence | ToolUseStop | PauseTurn

  /** A Messages API request. */
  datatype MessagesRequest = MessagesRequest(
    model: string,
    maxTokens: u32,
    messages: seq<Message>,
    system: Option<SystemPrompt>,
    tools: Option<seq<Tool>>,
    toolChoice: Option<ToolChoice>,
    disableParallelToolUse: Option<bool>,
    temperature: Option<F32>,
    topP: Option<F32>,
    topK: Option<u32>,
    stopSequences: Option<seq<string>>,
    stream: Option<bool>,
    outputConfig: Option<OutputConfig>,
    thinking: Option<ThinkingConfig>)

  /** The optional fields of a request, which the builders set one at a time. */
  datatype RequestField =
    | SystemField | ToolsField | ToolChoiceField | DisableParallelField | TemperatureField
    | OutputConfigField | ThinkingField

  /** `a` and `b` agree on every field except possibly `f`. */
  predicate AgreeExcept(a: MessagesRequest, b: MessagesRequest, f: RequestField)
  {
    && a.model == b.model
    && a.maxTokens == b.maxTokens
    && a.messages == b.messages
    && (f == SystemField || a.system == b.system)
    && (f == ToolsField || a.tools == b.tools)
    && (f == ToolChoiceField || a.toolChoice == b.toolChoice)
    && (f == DisableParallelField || a.disableParallelToolUse == b.disableParallelToolUse)
    && (f == TemperatureField || a.temperature == b.temperature)
    && a.topP == b.topP
    && a.topK == b.topK
    && a.stopSequences == b.stopSequences
    && a.stream == b.stream
    && (f == OutputConfigField || a.outputConfig == b.outputConfig)
    && (f == ThinkingField || a.thinking == b.thinking)
  }

  /** Every optional field of the request is unset. */
  predicate NoOptions(r: MessagesRequest)
  {
    && r.system.None? && r.tools.None? && r.toolChoice.None? && r.disableParallelToolUse.None?
    && r.temperature.None? && r.topP.None? && r.topK.None? && r.stopSequences.None?
    && r.stream.None? && r.outputConfig.None? && r.thinking.None?
  }

  /** `MessagesRequest::new`. */
  function NewRequest(model: string, maxTokens: u32, messages: seq<Message>): (r: MessagesRequest)
    ensures r.model == model && r.maxTokens == maxTokens && r.messages == messages
    ensures NoOptions(r)
  {
    MessagesRequest(model, maxTokens, messages, None, None, None, None, None, None, None, None, None, None, None)
  }

  /** `MessagesRequest::with_system`: a plain string system prompt. */
  function WithSystem(req: MessagesRequest, system: string): (r: MessagesRequest)
    ensures AgreeExcept(req, r, SystemField)
    ensures r.system == Some(SystemString(system))
  {
    req.(system := Some(SystemString(system)))
  }

  function WithTools(req: MessagesRequest, tools: seq<Tool>): (r: MessagesRequest)
    ensures AgreeExcept(req, r, ToolsField)
    ensures r.tools == Some(tools)
  {
    req.(tools := Some(tools))
  }

  function WithToolChoice(req: MessagesRequest, choice: ToolChoice): (r: MessagesRequest)
    ensures AgreeExcept(req, r, ToolChoiceField)
    ensures r.toolChoice == Some(choice)
  {
    req.(toolChoice := Some(choice))
  }

  function WithDisableParallelToolUse(req: MessagesRequest, disable: bool): (r: MessagesRequest)
    ensures AgreeExcept(req, r, DisableParallelField)
    ensures r.disableParallelToolUse == Some(disable)
  {
    req.(disableParallelToolUse := Some(disable))
  }

  function WithTemperature(req: MessagesRequest, temperature: F32): (r: MessagesRequest)
    ensures AgreeExcept(req, r, TemperatureField)
    ensures r.temperature == Some(temperature)
  {
    req.(temperature := Some(temperature))
  }

  /** `with_effort`: an output configuration holding only the effort level. */
  function WithEffort(req: MessagesRequest, effort: EffortLevel): (r: MessagesRequest)
    ensures AgreeExcept(req, r, OutputConfigField)
    ensures r.outputConfig.Some? && r.outputConfig.value.effort == Some(effort)
  {
    req.(outputConfig := Some(OutputConfig(Some(effort))))
  }

  /** `with_thinking`: extended thinking enabled with the given budget. */
  function WithThinking(req: MessagesRequest, budgetTokens: u32): (r: MessagesRequest)
    ensures AgreeExcept(req, r, ThinkingField)
    ensures r.thinking.Some? && r.thinking.value.Enabled? && r.thinking.value.budgetTokens == budgetTokens
  {
    req.(thinking := Some(Enabled(budgetTokens)))
  }

  /** A complete (non-streaming) response; also the payload of a succeeded batch result. */
  datatype MessagesResponse = MessagesResponse(
    id: string,
    responseType: string,
    role: Role,
    content: seq<ContentBlock>,
    model: string,
    stopReason: Option<StopReason>,
    stopSequence: Option<string>,
    usage: Usage)
}
