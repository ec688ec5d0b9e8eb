/**
 * The shared types of the tool-calling layer (tool.go): the JSON-schema tree of a
 * tool's parameters, the definitions exported to the model, the calls the model
 * makes, the results sent back, and the contract every tool satisfies.
 */
module ToolTypes {
  import opened Wrappers

  /**
   * Go strings are modelled by the sequence of code points they decode to.
   * A raw JSON payload (json.RawMessage) is kept opaque: the model never looks inside it.
   */
  type RawMessage = string

  /**
   * A node of a tool's parameter schema (Go `*Parameter`); `Nil` is the nil pointer.
   * `properties` maps field names to child nodes, `items` is the element schema of an
   * array, `enum` lists the allowed literal values (all string literals here).
   * An empty string, list or map stands for an unset field.
   */
  datatype Parameter =
    | Nil
    | Node(typ: string, description: string, properties: map<string, Parameter>,
           required: seq<string>, items: Parameter, enum: seq<string>)

  /** Every field a node lists as required is one of its properties, at every depth of the tree. */
  ghost predicate RequiredDeclared(p: Parameter) {
    match p
    case Nil => true
    case Node(_, _, properties, required, items, _) =>
      && (forall i :: 0 <= i < |required| ==> required[i] in properties)
      && (forall k :: k in properties ==> RequiredDeclared(properties[k]))
      && RequiredDeclared(items)
  }

  /** The function part of a tool definition. */
  datatype Function = Function(name: string, description: string, parameters: Parameter)

  /** A tool definition in the provider's wire shape; `kind` is the JSON field "type". */
  datatype ToolDefinition = ToolDefinition(kind: string, func: Function)

  /** The function a call names, with its arguments as raw JSON. */
  datatype FunctionCall = FunctionCall(name: string, arguments: RawMessage)

  /** A call requested by the model; `kind` is the JSON field "type" (only "function" is served). */
  datatype ToolCall = ToolCall(id: string, kind: string, func: FunctionCall)

  /** The outcome of one call, correlated to it through `toolCallId`. */
  datatype ToolResult = ToolResult(toolCallId: string, role: string, content: string)

  /**
   * The `Tool` interface: a name, a description, a parameter schema and an execution
   * that maps raw JSON arguments to a text or an error message.
   * (The `ToolExecutor` interface is the shape of `ToolRegistry.Execute`.)
   */
  datatype Tool = Tool(name: string, description: string, parameters: Parameter,
                       execute: RawMessage -> Result<string, string>)

  /** Every error the layer reports, with the wrapping the Go code applies to it. */
  datatype Error =
    | EmptyName                                  // "tool name cannot be empty"
    | AlreadyRegistered(name: string)            // "tool %s already registered"
    | NotFound(name: string)                     // "tool %s not found"
    | UnsupportedToolType(kind: string)          // "unsupported tool type: %s"
    | GetToolFailed(cause: Error)                // "failed to get tool: %w"
    | ExecutionFailed(message: string)           // "tool execution failed: %w"
    | GenerateFailed(message: string)            // "failed to generate with tools: %w"
    | NoChoices                                  // "no response choices received"
    | ToolCallFailed(tool: string, cause: Error) // "tool execution failed for %s: %w"
}
