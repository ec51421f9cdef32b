/**
 * The chat records of the Ollama provider (src/claude_clone/llm/ollama_provider.py):
 * a tool call, a message, the conversion of a message to the Ollama wire format,
 * and the tool schema builder.
 */
module Messages {

  import opened Wrappers
  import opened Json

  /** A tool invocation: the tool's name and its keyword arguments. */
  datatype ToolCall = ToolCall(name: string, arguments: map<string, Json>)

  /** A chat message; `toolCalls` is Python's `list[ToolCall] | None`, `toolCallId` is `str | None`. */
  datatype Message = Message(
    role: string,
    content: string,
    toolCalls: Option<seq<ToolCall>>,
    toolCallId: Option<string>)

  /** `Message(role=..., content=...)` with the optional fields left at `None`. */
  function Plain(role: string, content: string): Message {
    Message(role, content, None, None)
  }

  /** Python's truthiness of `msg.tool_calls`: present and non-empty. */
  predicate HasToolCalls(m: Message) {
    m.toolCalls.Some? && |m.toolCalls.value| > 0
  }

  /** The calls a message carries, `[]` when it carries none. */
  function CallsOf(m: Message): (calls: seq<ToolCall>)
    ensures |calls| > 0 <==> HasToolCalls(m)
  {
    if HasToolCalls(m) then m.toolCalls.value else []
  }

  /** One call in Ollama's format: `{"function": {"name": ..., "arguments": ...}}`. */
  function OllamaCall(tc: ToolCall): (j: Json)
    ensures KeysAre(j, [], {"function"}) && KeysAre(j, ["function"], {"name", "arguments"})
    ensures At(j, ["function", "name"]) == Some(JStr(tc.name))
    ensures At(j, ["function", "arguments"]) == Some(JDict(tc.arguments))
  {
    JDict(map["function" := JDict(map["name" := JStr(tc.name), "arguments" := JDict(tc.arguments)])])
  }

  /**
   * `Message.to_dict`: role and content always; `tool_calls` only when the message
   * carries a non-empty list, one Ollama-format entry per call, in order.
   * `tool_call_id` is never sent.
   */
  function ToDict(m: Message): (d: map<string, Json>)
    ensures d.Keys == {"role", "content"} + (if HasToolCalls(m) then {"tool_calls"} else {})
    ensures d["role"] == JStr(m.role) && d["content"] == JStr(m.content)
    ensures HasToolCalls(m) ==>
      d["tool_calls"].JList? && |d["tool_calls"].items| == |m.toolCalls.value|
    ensures HasToolCalls(m) ==> forall k :: 0 <= k < |m.toolCalls.value| ==>
      At(d["tool_calls"].items[k], ["function", "name"]) == Some(JStr(m.toolCalls.value[k].name)) &&
      At(d["tool_calls"].items[k], ["function", "arguments"]) == Some(JDict(m.toolCalls.value[k].arguments))
  {
    var base := map["role" := JStr(m.role), "content" := JStr(m.content)];
    if HasToolCalls(m) then
      var calls := m.toolCalls.value;
      base["tool_calls" := JList(seq(|calls|, k requires 0 <= k < |calls| => OllamaCall(calls[k])))]
    else base
  }

  /**
   * `create_tool_schema`: an Ollama function schema whose `required` list is
   * the given one, or `[]` when it is `None` or empty.
   */
  function CreateToolSchema(
    name: string, description: string, parameters: map<string, Json>, required: Option<seq<string>>): (j: Json)
    ensures KeysAre(j, [], {"type", "function"})
    ensures KeysAre(j, ["function"], {"name", "description", "parameters"})
    ensures KeysAre(j, ["function", "parameters"], {"type", "properties", "required"})
    ensures At(j, ["type"]) == Some(JStr("function"))
    ensures At(j, ["function", "name"]) == Some(JStr(name))
    ensures At(j, ["function", "description"]) == Some(JStr(description))
    ensures At(j, ["function", "parameters", "type"]) == Some(JStr("object"))
    ensures At(j, ["function", "parameters", "properties"]) == Some(JDict(parameters))
    ensures At(j, ["function", "parameters", "required"]) == Some(StrList(required.GetOr([])))
  {
    JDict(map[
      "type" := JStr("function"),
      "function" := JDict(map[
        "name" := JStr(name),
        "description" := JStr(description),
        "parameters" := JDict(map[
          "type" := JStr("object"),
          "properties" := JDict(parameters),
          "required" := StrList(required.GetOr([]))])])])
  }
}
