/** System prompt composition (src/prompts.rs): appending the guidance
    that asks the model to call independent tools in parallel. */
module Prompts {

  /** The tag that wraps the parallel tool use guidance. */
  const PARALLEL_TAG: string := "use_parallel_tool_calls"

  /** The opening tag line of the guidance. */
  const OPEN_TAG: string := "<" + PARALLEL_TAG + ">\n"

  /** The guidance text itself, six lines. */
  const GUIDANCE: string :=
    "For maximum efficiency, whenever you perform multiple independent operations, invoke all relevant\n"
    + "tools simultaneously rather than sequentially. Prioritize calling tools in parallel whenever possible.\n"
    + "For example, when reading 3 files, run 3 tool calls in parallel to read all 3 files into context at\n"
    + "the same time. When running multiple read-only commands like `ls` or `list_dir`, always run all of\n"
    + "the commands in parallel. Err on the side of maximizing parallel tool calls rather than running too\n"
    + "many tools sequentially.\n"

  /** `PARALLEL_TOOL_USE_PROMPT`: the guidance between an opening and a
      closing `use_parallel_tool_calls` tag, each on its own line. */
  const PARALLEL_TOOL_USE_PROMPT: string := OPEN_TAG + GUIDANCE_AND_CLOSE

  /** The guidance followed by the closing tag. */
  const GUIDANCE_AND_CLOSE: string := GUIDANCE + "</" + PARALLEL_TAG + ">"

  /** `with_parallel_tools`: the base prompt, a blank line, then the guidance. */
  function WithParallelTools(basePrompt: string): (r: string)
    ensures |r| == |basePrompt| + 2 + |PARALLEL_TOOL_USE_PROMPT|
    ensures basePrompt <= r
    ensures r[|basePrompt|..|basePrompt| + 2] == "\n\n"
    ensures r[|basePrompt| + 2..] == PARALLEL_TOOL_USE_PROMPT
  {
    basePrompt + "\n\n" + PARALLEL_TOOL_USE_PROMPT
  }

  /** The combined prompt names the `use_parallel_tool_calls` tag right
      after the base prompt, the blank line and the opening `<`. */
  lemma CombinedMentionsTag(basePrompt: string)
    ensures var r := WithParallelTools(basePrompt);
      r[|basePrompt| + 3..|basePrompt| + 3 + |PARALLEL_TAG|] == PARALLEL_TAG
  {
    TagAfterOpening(basePrompt, PARALLEL_TAG, GUIDANCE_AND_CLOSE);
  }

  /** In `base`, a blank line, `<tag>` and a newline, then `rest`, the tag
      starts three characters after `base`. */
  lemma TagAfterOpening(base: string, tag: string, rest: string)
    ensures var r := base + "\n\n" + ("<" + tag + ">\n" + rest);
      r[|base| + 3..|base| + 3 + |tag|] == tag
  {
    var r := base + "\n\n" + ("<" + tag + ">\n" + rest);
    assert forall i :: 0 <= i < |tag| ==> r[|base| + 3 + i] == tag[i];
  }

  /** The base prompt and the guidance can be recovered from the combined prompt. */
  lemma WithParallelToolsInjective(a: string, b: string)
    requires WithParallelTools(a) == WithParallelTools(b)
    ensures a == b
  {
    assert |a| == |b|;
    assert a == WithParallelTools(a)[..|a|];
  }
}
