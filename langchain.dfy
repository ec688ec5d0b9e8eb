/**
 * The fragment of the LLM client library's types that the tool-calling layer reads
 * or builds: generic JSON-like maps, exported tools, and generation responses.
 */
module LangChain {

  /** A value stored in a `map[string]any`: a string, a list of strings, or a nested map. */
  datatype Value = Str(s: string) | List(items: seq<string>) | Obj(obj: Json)

  /** A `map[string]any`, which may be the nil map. */
  datatype Json = NilMap | Map(fields: map<string, Value>)

  /** `llms.FunctionDefinition`: the parameters are a translated schema. */
  datatype FunctionDefinition = FunctionDefinition(name: string, description: string, parameters: Json)

  /** `llms.Tool`; `kind` is the field `Type`. */
  datatype LlmTool = LlmTool(kind: string, func: FunctionDefinition)

  /** `llms.FunctionCall`. */
  datatype LlmFunctionCall = LlmFunctionCall(name: string, arguments: string)

  /** `llms.ToolCall`; `kind` is the field `Type`. */
  datatype LlmToolCall = LlmToolCall(id: string, kind: string, functionCall: LlmFunctionCall)

  /** `llms.ContentChoice`: the text of one candidate and the tool calls it requests. */
  datatype ContentChoice = ContentChoice(content: string, toolCalls: seq<LlmToolCall>)

  /** `llms.ContentResponse`. */
  datatype ContentResponse = ContentResponse(choices: seq<ContentChoice>)
}
