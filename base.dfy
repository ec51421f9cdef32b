/**
 * The result type every tool returns and a tool's description as a schema
 * (src/claude_clone/tools/base.py).
 */
module Base {

  import opened Wrappers
  import opened Json
  import opened Messages

  /** `ToolResult`: whether the tool succeeded, its output, its error and extra metadata. */
  datatype ToolResult = ToolResult(success: bool, output: string, error: Option<string>, metadata: map<string, Json>)

  /** `ToolResult.ok`: a success carrying `output` and the given metadata. */
  function Ok(output: string, metadata: map<string, Json>): (r: ToolResult)
    ensures r.success && r.error == None
    ensures r.output == output && r.metadata == metadata
  {
    ToolResult(true, output, None, metadata)
  }

  /** `ToolResult.fail`: a failure with no output and no metadata. */
  function Fail(error: string): (r: ToolResult)
    ensures !r.success && r.error == Some(error)
    ensures r.output == "" && r.metadata == map[]
  {
    ToolResult(false, "", Some(error), map[])
  }

  /** What a `Tool` declares about itself. */
  datatype ToolInfo = ToolInfo(name: string, description: string, parameters: map<string, Json>, required: seq<string>)

  /** `Tool.to_schema`. */
  function ToSchema(t: ToolInfo): (j: Json)
    ensures KeysAre(j, [], {"type", "function"})
    ensures KeysAre(j, ["function"], {"name", "description", "parameters"})
    ensures KeysAre(j, ["function", "parameters"], {"type", "properties", "required"})
    ensures At(j, ["type"]) == Some(JStr("function"))
    ensures At(j, ["function", "name"]) == Some(JStr(t.name))
    ensures At(j, ["function", "parameters", "required"]) == Some(StrList(t.required))
  {
    JDict(map[
      "type" := JStr("function"),
      "function" := JDict(map[
        "name" := JStr(t.name),
        "description" := JStr(t.description),
        "parameters" := JDict(map[
          "type" := JStr("object"),
          "properties" := JDict(t.parameters),
          "required" := StrList(t.required)])])])
  }

  /** A tool's own schema is the one the provider's schema builder gives for the same fields. */
  lemma ToSchemaIsCreateToolSchema(t: ToolInfo)
    ensures ToSchema(t) == CreateToolSchema(t.name, t.description, t.parameters, Some(t.required))
  {
  }
}
