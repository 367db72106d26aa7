/** Token budgeting (src/tokens.rs): fixed overheads added to the
    tokenizer's counts for messages, tools and system prompts, and the check
    that a request fits a model's context window.

    The BPE tokenizer and JSON rendering are not modelled: a `Tokenizer`
    supplies both as functions. The source counts in `usize`; the model
    counts in `nat`. */
module Tokens {
  import opened Base
  import opened Json
  import opened Types
  import Models

  /** The text tokenizer and `serde_json::Value::to_string`. */
  datatype Tokenizer = Tokenizer(countText: string -> nat, render: Json -> string)

  /** What the model assumes of the tokenizer: the empty text has no tokens. */
  predicate EmptyIsFree(t: Tokenizer)
  {
    t.countText("") == 0
  }

  const MESSAGE_OVERHEAD: nat := 3
  const ROLE_TOKENS: nat := 1
  const TEXT_OVERHEAD: nat := 2
  const TOOL_USE_OVERHEAD: nat := 4
  const TOOL_RESULT_OVERHEAD: nat := 4
  const TOOL_OVERHEAD: nat := 10
  const REQUEST_OVERHEAD: nat := 10

  /** The block kinds `count_content_block` has a count for. */
  predicate Counted(b: ContentBlock)
  {
    b.Text? || b.ToolUse? || b.ToolResult?
  }

  predicate AllCounted(bs: seq<ContentBlock>)
  {
    forall i :: 0 <= i < |bs| ==> Counted(bs[i])
  }

  predicate MessagesCounted(ms: seq<Message>)
  {
    forall i :: 0 <= i < |ms| ==> AllCounted(ms[i].content)
  }

  /** `count_content_block`. */
  function CountContentBlock(t: Tokenizer, b: ContentBlock): (n: nat)
    requires Counted(b)
    ensures b.Text? ==> n == TEXT_OVERHEAD + t.countText(b.text)
    ensures b.ToolUse? ==> n == TOOL_USE_OVERHEAD + t.countText(b.name) + t.countText(t.render(b.input))
    ensures b.ToolResult? && b.content.Some? ==>
      n == TOOL_RESULT_OVERHEAD + t.countText(b.toolUseId) + t.countText(b.content.value)
    ensures b.ToolResult? && b.content.None? ==> n == TOOL_RESULT_OVERHEAD + t.countText(b.toolUseId)
  {
    match b
    case Text(text, _, _) => TEXT_OVERHEAD + t.countText(text)
    case ToolUse(_, name, input, _) => TOOL_USE_OVERHEAD + t.countText(name) + t.countText(t.render(input))
    case ToolResult(id, content, _) =>
      TOOL_RESULT_OVERHEAD + t.countText(id) + (if content.Some? then t.countText(content.value) else 0)
  }

  /** A tool result without content counts as one with empty content. */
  lemma AbsentContentIsEmpty(t: Tokenizer, id: string, isError: Option<bool>)
    requires EmptyIsFree(t)
    ensures CountContentBlock(t, ToolResult(id, None, isError)) == CountContentBlock(t, ToolResult(id, Some(""), isError))
  {
  }

  /** The sum of the block counts. */
  function CountBlocks(t: Tokenizer, bs: seq<ContentBlock>): (n: nat)
    requires AllCounted(bs)
    ensures bs == [] ==> n == 0
    ensures n >= TEXT_OVERHEAD * |bs|
  {
    if bs == [] then 0 else CountContentBlock(t, bs[0]) + CountBlocks(t, bs[1..])
  }

  lemma {:induction false} CountBlocksAppend(t: Tokenizer, a: seq<ContentBlock>, b: seq<ContentBlock>)
    requires AllCounted(a) && AllCounted(b)
    ensures AllCounted(a + b)
    ensures CountBlocks(t, a + b) == CountBlocks(t, a) + CountBlocks(t, b)
  {
    if a == [] {
      assert a + b == b;
    } else {
      assert (a + b)[1..] == a[1..] + b;
      CountBlocksAppend(t, a[1..], b);
    }
  }

  /** `count_message`: the structure and role overhead plus the blocks. */
  function CountMessage(t: Tokenizer, m: Message): (n: nat)
    requires AllCounted(m.content)
    ensures n == MESSAGE_OVERHEAD + ROLE_TOKENS + CountBlocks(t, m.content)
    ensures n >= 4
  {
    MESSAGE_OVERHEAD + ROLE_TOKENS + CountBlocks(t, m.content)
  }

  /** A one-line user or assistant message costs 6 tokens plus its text. */
  lemma PlainMessageCount(t: Tokenizer, text: string)
    ensures CountMessage(t, UserMessage(text)) == 6 + t.countText(text)
    ensures CountMessage(t, AssistantMessage(text)) == 6 + t.countText(text)
  {
    assert UserMessage(text).content[1..] == [];
    assert AssistantMessage(text).content[1..] == [];
  }

  function CountMessages(t: Tokenizer, ms: seq<Message>): (n: nat)
    requires MessagesCounted(ms)
    ensures n >= 4 * |ms|
  {
    if ms == [] then 0 else CountMessage(t, ms[0]) + CountMessages(t, ms[1..])
  }

  lemma {:induction false} CountMessagesAppend(t: Tokenizer, a: seq<Message>, b: seq<Message>)
    requires MessagesCounted(a) && MessagesCounted(b)
    ensures MessagesCounted(a + b)
    ensures CountMessages(t, a + b) == CountMessages(t, a) + CountMessages(t, b)
  {
    if a == [] {
      assert a + b == b;
    } else {
      assert (a + b)[1..] == a[1..] + b;
      CountMessagesAppend(t, a[1..], b);
    }
  }

  /** `count_system_prompt`: the text, or the sum over the blocks' texts. */
  function CountSystemPrompt(t: Tokenizer, s: SystemPrompt): (n: nat)
    ensures s.SystemString? ==> n == t.countText(s.prompt)
    ensures s.Blocks? ==> n == CountSystemBlocks(t, s.blocks)
  {
    match s
    case SystemString(p) => t.countText(p)
    case Blocks(bs) => CountSystemBlocks(t, bs)
  }

  function CountSystemBlocks(t: Tokenizer, bs: seq<SystemBlock>): (n: nat)
    ensures bs == [] ==> n == 0
    ensures |bs| == 1 ==> n == t.countText(bs[0].text)
  {
    if bs == [] then 0 else t.countText(bs[0].text) + CountSystemBlocks(t, bs[1..])
  }

  /** A cached system prompt of one block costs what the same prompt costs as a string. */
  lemma CachedSystemCostsTheSame(t: Tokenizer, prompt: string, cache: Option<CacheControl>)
    ensures CountSystemPrompt(t, Blocks([SystemBlock("text", prompt, cache)]))
         == CountSystemPrompt(t, SystemString(prompt))
  {
  }

  /** `count_tool`: the structure overhead, name, description and rendered schema. */
  function CountTool(t: Tokenizer, tool: Tool): (n: nat)
    ensures n == TOOL_OVERHEAD + t.countText(tool.name) + t.countText(tool.description)
                 + t.countText(t.render(tool.inputSchema))
    ensures n >= TOOL_OVERHEAD
  {
    TOOL_OVERHEAD + t.countText(tool.name) + t.countText(tool.description) + t.countText(t.render(tool.inputSchema))
  }

  function CountTools(t: Tokenizer, tools: seq<Tool>): (n: nat)
    ensures n >= TOOL_OVERHEAD * |tools|
  {
    if tools == [] then 0 else CountTool(t, tools[0]) + CountTools(t, tools[1..])
  }

  /** `count_request`: system prompt (if any), messages, tools (if any) and
      the request overhead. */
  function CountRequest(t: Tokenizer, req: MessagesRequest): (n: nat)
    requires MessagesCounted(req.messages)
    ensures n >= REQUEST_OVERHEAD + 4 * |req.messages|
    ensures req.tools.Some? ==> n >= REQUEST_OVERHEAD + TOOL_OVERHEAD * |req.tools.value|
    ensures req.system.None? && req.tools.None? ==> n == REQUEST_OVERHEAD + CountMessages(t, req.messages)
  {
    (if req.system.Some? then CountSystemPrompt(t, req.system.value) else 0)
    + CountMessages(t, req.messages)
    + (if req.tools.Some? then CountTools(t, req.tools.value) else 0)
    + REQUEST_OVERHEAD
  }

  /** Appending a message to a request adds exactly that message's count. */
  lemma CountRequestAddMessage(t: Tokenizer, req: MessagesRequest, m: Message)
    requires MessagesCounted(req.messages) && AllCounted(m.content)
    ensures MessagesCounted(req.messages + [m])
    ensures CountRequest(t, req.(messages := req.messages + [m])) == CountRequest(t, req) + CountMessage(t, m)
  {
    CountMessagesAppend(t, req.messages, [m]);
    assert [m][1..] == [];
  }

  /** Setting a string system prompt on a request without one adds exactly
      the prompt's text count. */
  lemma CountRequestAddSystem(t: Tokenizer, req: MessagesRequest, s: string)
    requires MessagesCounted(req.messages) && req.system.None?
    ensures CountRequest(t, WithSystem(req, s)) == CountRequest(t, req) + t.countText(s)
  {
  }

  /** Setting the tools of a request without any adds exactly their count. */
  lemma CountRequestAddTools(t: Tokenizer, req: MessagesRequest, tools: seq<Tool>)
    requires MessagesCounted(req.messages) && req.tools.None?
    ensures CountRequest(t, WithTools(req, tools)) == CountRequest(t, req) + CountTools(t, tools)
  {
  }

  /** The window `validate_context_window` checks against: the extended one
      when it is asked for and the model has one, else the standard one. */
  function ContextLimit(m: Models.Model, useExtendedContext: bool): (limit: u32)
    ensures useExtendedContext && Models.SupportsExtendedContext(m) ==> limit == m.maxContextTokensExtended.value
    ensures !(useExtendedContext && Models.SupportsExtendedContext(m)) ==> limit == m.maxContextTokens
  {
    if useExtendedContext then
      match Models.MaxExtendedContext(m)
      case Some(n) => n
      case None => m.maxContextTokens
    else m.maxContextTokens
  }

  /** `validate_context_window`: the request's input count plus its
      `max_tokens` must not exceed the window. */
  function ValidateContextWindow(t: Tokenizer, req: MessagesRequest, m: Models.Model, useExtendedContext: bool)
    : (r: Result<(), string>)
    requires MessagesCounted(req.messages)
    ensures r.Ok? <==> CountRequest(t, req) + req.maxTokens <= ContextLimit(m, useExtendedContext)
    ensures r.Err? ==> (r.error ==
      "Request would use ~" + Decimal(CountRequest(t, req) + req.maxTokens)
      + " tokens (input: " + Decimal(CountRequest(t, req)) + ", output: " + Decimal(req.maxTokens)
      + ") but model " + m.name + " has " + Decimal(ContextLimit(m, useExtendedContext)) + " token limit"
      + (if useExtendedContext then " (extended)" else ""))
  {
    var input := CountRequest(t, req);
    var total := input + req.maxTokens;
    var limit := ContextLimit(m, useExtendedContext);
    if total > limit then
      Err("Request would use ~" + Decimal(total) + " tokens (input: " + Decimal(input) + ", output: "
          + Decimal(req.maxTokens) + ") but model " + m.name + " has " + Decimal(limit) + " token limit"
          + (if useExtendedContext then " (extended)" else ""))
    else Ok(())
  }

  /** Is a model's extended window, when it has one, at least its standard one? */
  predicate ExtendedIsWider(m: Models.Model)
  {
    m.maxContextTokensExtended.Some? ==> m.maxContextTokensExtended.value >= m.maxContextTokens
  }

  /** Asking for extended context is never stricter than not asking, for a
      model whose extended window is the wider one. */
  lemma ExtendedNeverStricter(t: Tokenizer, req: MessagesRequest, m: Models.Model)
    requires MessagesCounted(req.messages) && ExtendedIsWider(m)
    ensures ValidateContextWindow(t, req, m, false).Ok? ==> ValidateContextWindow(t, req, m, true).Ok?
  {
  }

  /** Every shipped model's extended window is the wider one. */
  lemma AllModelsExtendedIsWider(k: nat)
    requires k < |Models.ALL_MODELS|
    ensures ExtendedIsWider(Models.ALL_MODELS[k])
  {
  }

  /** A model without extended context is checked against its standard
      window either way. */
  lemma NoExtendedSameCheck(t: Tokenizer, req: MessagesRequest, m: Models.Model)
    requires MessagesCounted(req.messages) && !Models.SupportsExtendedContext(m)
    ensures ValidateContextWindow(t, req, m, true).Ok? == ValidateContextWindow(t, req, m, false).Ok?
  {
  }
}
