/** Structured output through forced tool use (src/structured.rs): a tool
    whose input schema is the wanted JSON shape, and a tool choice that
    forces the model to call it. */
module Structured {
  import opened Base
  import opened Json
  import opened Types

  /** `json_schema_tool`: the schema tool, with user input disabled and no
      examples or cache control. */
  function JsonSchemaTool(name: string, description: string, schema: Json): (t: Tool)
    ensures t.name == name && t.description == description && t.inputSchema == schema
    ensures t.disableUserInput == Some(true)
    ensures t.inputExamples.None? && t.cacheControl.None?
  {
    Tool(name, description, schema, Some(true), None, None)
  }

  /** `force_tool`: the same choice `ToolChoice::tool` builds. */
  function ForceTool(toolName: string): (c: ToolChoice)
    ensures c == ChooseTool(toolName)
    ensures c.ToolNamed? && c.name == toolName
  {
    ToolNamed(toolName)
  }

  /** The usage the source documents: a request offering one schema tool and
      forcing that tool names, in its tool choice, a tool it offers, and
      keeps every other field of the request. */
  lemma ForcedToolIsOffered(req: MessagesRequest, name: string, description: string, schema: Json)
    ensures var tool := JsonSchemaTool(name, description, schema);
            var r := WithToolChoice(WithTools(req, [tool]), ForceTool(name));
      && r.tools.Some? && r.toolChoice.Some? && r.toolChoice.value.ToolNamed?
      && (exists i :: 0 <= i < |r.tools.value| && r.tools.value[i].name == r.toolChoice.value.name)
      && r.model == req.model && r.messages == req.messages && r.system == req.system
  {
    var tool := JsonSchemaTool(name, description, schema);
    var r := WithToolChoice(WithTools(req, [tool]), ForceTool(name));
    assert r.tools.value[0].name == name;
  }
}
