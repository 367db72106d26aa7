/** The multi-turn conversation builder (src/conversation.rs): a message
    history, tool definitions and an optional system prompt, turned into a
    request on demand. The source's `&mut self` methods become functions
    from the old builder to the new one. */
module Conversation {
  import opened Base
  import Types

  datatype ConversationBuilder = ConversationBuilder(
    messages: seq<Types.Message>,
    tools: seq<Types.Tool>,
    system: Option<Types.SystemPrompt>)

  /** `ConversationBuilder::new` (and `Default`). */
  function New(): (c: ConversationBuilder)
    ensures c.messages == [] && c.tools == [] && c.system.None?
  {
    ConversationBuilder([], [], None)
  }

  /** `b` is `a` with exactly one message `m` appended, and nothing else changed. */
  predicate AppendedOne(a: ConversationBuilder, b: ConversationBuilder, m: Types.Message)
  {
    && |b.messages| == |a.messages| + 1
    && b.messages[..|a.messages|] == a.messages
    && b.messages[|a.messages|] == m
    && b.tools == a.tools
    && b.system == a.system
  }

  /** `with_system`: a plain string prompt replaces any earlier one. */
  function WithSystem(c: ConversationBuilder, prompt: string): (r: ConversationBuilder)
    ensures r.system == Some(Types.SystemString(prompt))
    ensures r.messages == c.messages && r.tools == c.tools
  {
    c.(system := Some(Types.SystemString(prompt)))
  }

  /** `with_cached_system`: a single "text" block marked for ephemeral caching. */
  function WithCachedSystem(c: ConversationBuilder, prompt: string): (r: ConversationBuilder)
    ensures r.system.Some? && r.system.value.Blocks? && |r.system.value.blocks| == 1
    ensures var b := r.system.value.blocks[0];
      b.blockType == "text" && b.text == prompt && b.cacheControl == Some(Types.EphemeralCache())
    ensures r.messages == c.messages && r.tools == c.tools
  {
    c.(system := Some(Types.Blocks([Types.SystemBlock("text", prompt, Some(Types.EphemeralCache()))])))
  }

  /** `with_tool`: appends one tool. */
  function WithTool(c: ConversationBuilder, tool: Types.Tool): (r: ConversationBuilder)
    ensures |r.tools| == |c.tools| + 1 && r.tools[..|c.tools|] == c.tools && r.tools[|c.tools|] == tool
    ensures r.messages == c.messages && r.system == c.system
  {
    c.(tools := c.tools + [tool])
  }

  /** `with_tools`: appends the tools in the given order. */
  function WithTools(c: ConversationBuilder, tools: seq<Types.Tool>): (r: ConversationBuilder)
    ensures |r.tools| == |c.tools| + |tools|
    ensures r.tools[..|c.tools|] == c.tools && r.tools[|c.tools|..] == tools
    ensures r.messages == c.messages && r.system == c.system
  {
    c.(tools := c.tools + tools)
  }

  /** `with_cached_tool`: appends the tool with its cache control forced to ephemeral. */
  function WithCachedTool(c: ConversationBuilder, tool: Types.Tool): (r: ConversationBuilder)
    ensures |r.tools| == |c.tools| + 1 && r.tools[..|c.tools|] == c.tools
    ensures var t := r.tools[|c.tools|];
      && t.cacheControl == Some(Types.EphemeralCache())
      && t.name == tool.name && t.description == tool.description && t.inputSchema == tool.inputSchema
      && t.disableUserInput == tool.disableUserInput && t.inputExamples == tool.inputExamples
    ensures r.messages == c.messages && r.system == c.system
  {
    c.(tools := c.tools + [tool.(cacheControl := Some(Types.EphemeralCache()))])
  }

  /** Adding several tools one at a time is adding them as a list. */
  lemma {:induction false} WithToolsIsRepeatedWithTool(c: ConversationBuilder, tools: seq<Types.Tool>)
    ensures WithTools(c, tools) == if tools == [] then c else WithTools(WithTool(c, tools[0]), tools[1..])
  {
    if tools != [] {
      assert c.tools + tools == (c.tools + [tools[0]]) + tools[1..];
    } else {
      assert c.tools + tools == c.tools;
    }
  }

  /** `add_user_message`. */
  function AddUserMessage(c: ConversationBuilder, text: string): (r: ConversationBuilder)
    ensures |r.messages| == |c.messages| + 1 && AppendedOne(c, r, r.messages[|c.messages|])
    ensures var m := r.messages[|c.messages|];
      m.role == Types.User && |m.content| == 1 && Types.IsPlainText(m.content[0], text)
  {
    c.(messages := c.messages + [Types.UserMessage(text)])
  }

  /** `add_assistant_message`. */
  function AddAssistantMessage(c: ConversationBuilder, text: string): (r: ConversationBuilder)
    ensures |r.messages| == |c.messages| + 1 && AppendedOne(c, r, r.messages[|c.messages|])
    ensures var m := r.messages[|c.messages|];
      m.role == Types.Assistant && |m.content| == 1 && Types.IsPlainText(m.content[0], text)
  {
    c.(messages := c.messages + [Types.AssistantMessage(text)])
  }

  /** `add_assistant_with_blocks`: an assistant message holding the blocks as given. */
  function AddAssistantWithBlocks(c: ConversationBuilder, content: seq<Types.ContentBlock>): (r: ConversationBuilder)
    ensures AppendedOne(c, r, Types.Message(Types.Assistant, content))
  {
    c.(messages := c.messages + [Types.Message(Types.Assistant, content)])
  }

  /** `add_tool_result`: a user message with one successful tool result. */
  function AddToolResult(c: ConversationBuilder, toolUseId: string, result: string): (r: ConversationBuilder)
    ensures |r.messages| == |c.messages| + 1 && AppendedOne(c, r, r.messages[|c.messages|])
    ensures var m := r.messages[|c.messages|];
      && m.role == Types.User && |m.content| == 1
      && m.content[0] == Types.ToolResult(toolUseId, Some(result), None)
  {
    c.(messages := c.messages + [Types.ToolResultMessage(toolUseId, result)])
  }

  /** `add_tool_error`: a user message with one tool result flagged as an error. */
  function AddToolError(c: ConversationBuilder, toolUseId: string, errorMessage: string): (r: ConversationBuilder)
    ensures |r.messages| == |c.messages| + 1 && AppendedOne(c, r, r.messages[|c.messages|])
    ensures var m := r.messages[|c.messages|];
      && m.role == Types.User && |m.content| == 1 && m.content[0].ToolResult?
      && m.content[0].toolUseId == toolUseId && m.content[0].content == Some(errorMessage)
      && m.content[0].isError == Some(true)
  {
    c.(messages := c.messages + [Types.Message(Types.User, [Types.ToolResult(toolUseId, Some(errorMessage), Some(true))])])
  }

  /** A tool error and a tool result for the same call differ only in the error flag. */
  lemma ToolErrorDiffersOnlyInFlag(c: ConversationBuilder, id: string, text: string)
    ensures var e := AddToolError(c, id, text).messages[|c.messages|];
            var ok := AddToolResult(c, id, text).messages[|c.messages|];
      e.content[0] == ok.content[0].(isError := Some(true))
  {
  }

  /** `clear_messages`: empties the history, keeping tools and system prompt. */
  function ClearMessages(c: ConversationBuilder): (r: ConversationBuilder)
    ensures r.messages == []
    ensures r.tools == c.tools && r.system == c.system
  {
    c.(messages := [])
  }

  /** `build`: a request carrying the history and system prompt, with tools
      only when there are some, and every other option unset. The builder
      itself is a value and cannot change. */
  function Build(c: ConversationBuilder, model: string, maxTokens: u32): (r: Types.MessagesRequest)
    ensures r.model == model && r.maxTokens == maxTokens && r.messages == c.messages
    ensures r.system == c.system
    ensures r.tools.Some? <==> c.tools != []
    ensures r.tools.Some? ==> r.tools.value == c.tools
    ensures r.toolChoice.None? && r.disableParallelToolUse.None? && r.temperature.None? && r.topP.None?
    ensures r.topK.None? && r.stopSequences.None? && r.stream.None? && r.outputConfig.None? && r.thinking.None?
  {
    var request := Types.NewRequest(model, maxTokens, c.messages);
    var request := if c.system.Some? then request.(system := c.system) else request;
    if c.tools != [] then request.(tools := Some(c.tools)) else request
  }

  /** `into_request`: the same request `build` gives. */
  function IntoRequest(c: ConversationBuilder, model: string, maxTokens: u32): (r: Types.MessagesRequest)
    ensures r == Build(c, model, maxTokens)
  {
    Build(c, model, maxTokens)
  }

  /** Adding a message to the builder adds exactly that message to the
      request it builds, and changes nothing else in the request. */
  lemma BuildAfterAdd(c: ConversationBuilder, m: Types.Message, model: string, maxTokens: u32)
    ensures var c' := c.(messages := c.messages + [m]);
      Build(c', model, maxTokens) == Build(c, model, maxTokens).(messages := Build(c, model, maxTokens).messages + [m])
  {
  }

  /** Clearing and rebuilding gives the same request without its history. */
  lemma BuildAfterClear(c: ConversationBuilder, model: string, maxTokens: u32)
    ensures Build(ClearMessages(c), model, maxTokens) == Build(c, model, maxTokens).(messages := [])
  {
  }

  /** The source's basic conversation: three messages with alternating roles. */
  lemma BasicConversationExample()
    ensures var c := AddUserMessage(AddAssistantMessage(AddUserMessage(New(), "Hello"), "Hi there!"), "How are you?");
      |c.messages| == 3 && c.messages[0].role == Types.User && c.messages[1].role == Types.Assistant
      && c.messages[2].role == Types.User
  {
  }
}
