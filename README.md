# groq-go-tooling: the tool-calling layer, modelled and verified in Dafny

This project models the tool-calling layer of the `groq` Go package. It has four parts.

- **Shared types** (`tool.go`, module `ToolTypes` in `tool.dfy`):
  - the recursive `Parameter` schema tree (`Nil` stands for the nil pointer);
  - `ToolDefinition`, `Function`, `ToolCall`, `FunctionCall` and `ToolResult`;
  - the `Tool` interface, as a datatype that carries its execution as a function value;
  - one `Error` constructor per error message the layer produces.

  The fragment of the client library's types that the layer reads or builds is in module `LangChain` (`langchain.dfy`).
- **Tool registry** (`registry.go`, module `Registry` in `registry.dfy`):
  - a `ToolRegistry` class whose `tools` map is updated in place by `Register` and `Unregister`;
  - the lookup `GetTool` and the dispatch `Execute`;
  - the loops of `ListTools`, `GetToolDefinitions` and `GetLangChainTools`, which pick each next map key arbitrarily, as Go's map iteration does;
  - the recursive schema translation `ToLangChainFormat`, with its inverse `FromLangChainFormat` and the round trip between them.
- **Execution loop** (`tool_execution.go`, module `ToolExecution` in `tool_execution.dfy`):
  - `GenerateWithRegistryExecution` is the imperative loop: at most ten rounds, each asking the provider, then dispatching every tool call of the first choice in order;
  - that inner `for` loop over the choice's tool calls is the method `DispatchCalls`, proved equal to its specification `DispatchAll`;
  - it ends with one summary call on the follow-up prompt;
  - it is proved equal to the recursive specification `Rounds`/`Run`, and the loop's properties are proved about that specification.
  - The provider is an oracle. `generateWithTools` is indexed by the round, because every round sends the same prompts and tools. `generate` is the plain call.
- **Example tools** (`tool_examples.go`, module `ToolExamples` in `tool_examples.dfy`):
  - the names and schemas of the calculator, weather and text-processor tools;
  - the text processor's five operations;
  - the in-place rune reversal loop;
  - `strings.Fields` word counting against a reference scanner;
  - byte length under UTF-8;
  - `%d` decimal rendering with its parse-back.

The loop follows the statements that run, not the comment above them. The comment at `tool_execution.go:38` says a round without tool calls returns the choice's content directly. That return is commented out (`tool_execution.go:40-42`). So a quiet round only ends the loop, and the summary call is always made, even after a quiet first round with no results (`QuietFirstRoundIsSummarized`).

## Model

| member | source | states |
|---|---|---|
| Registry.ToolRegistry.constructor | registry.go:17-21 | A new registry holds no tools and satisfies the invariant that every entry is filed under its own non-empty name. |
| Registry.ToolRegistry.Register | registry.go:24-39 | An empty name fails with the empty-name error and leaves the map unchanged. A name already present fails with already-registered and leaves the map unchanged, so the old tool is not overwritten. Otherwise it succeeds and the map becomes the old map plus exactly name ↦ tool. |
| Registry.ToolRegistry.Unregister | registry.go:42-52 | An absent name fails with not-found and the map is unchanged. Otherwise it succeeds and removes exactly that key. |
| Registry.ToolRegistry.GetTool | registry.go:55-65 | Succeeds exactly when the name is registered, and returns the tool registered under it. Otherwise it returns not-found for that name. It reads the registry only. |
| Registry.ToolRegistry.ListTools | registry.go:68-78 | Returns every registered name exactly once, in unspecified order: its length is the map size, membership matches the domain, and there are no repeats. |
| Registry.ToolRegistry.GetToolDefinitions | registry.go:81-98 | One "function" definition per registered tool, in unspecified order: each carries the name, description and schema of the tool under its name, names are distinct, and every tool appears. |
| Registry.ToolRegistry.GetLangChainTools | registry.go:160-178 | The same as GetToolDefinitions, for client-library tools whose parameters are the schema's translation. |
| Registry.ToolRegistry.Execute | registry.go:101-121 | A kind other than "function" is refused before any lookup. An unregistered name gives get-tool-failed wrapping not-found. Otherwise the call succeeds exactly when the tool's execution does. A success answers with the call's id, role "tool" and the tool's output. A failure wraps the tool's own error. |
| Registry.ToLangChainFormat | registry.go:124-157 | A nil node translates to the nil map. For a node, each of type, description, enum, required, properties and items is present exactly when the field is non-empty or set, and no other key appears. |
| Registry.TranslateProperties | registry.go:144-150 | The translated "properties" map has exactly the input's property keys. |
| Registry.TranslatedNode | registry.go:131-154 | Each present key holds its field: the strings, the lists, the recursively translated properties, and the translated element schema. |
| Registry.FromToLangChainFormat | registry.go:124-157 | The translation loses nothing: reading a translated schema back gives the original schema, at every depth. |
| Registry.TranslationInjective | registry.go:124-157 | Two schemas with the same translation are equal. |
| ToolExamples.CalculatorParameters | tool_examples.go:24-44 | An "object" schema with properties operation, a and b, each required property declared, at every depth. |
| ToolExamples.WeatherParameters | tool_examples.go:100-116 | An "object" schema with properties location and unit, each required property declared. |
| ToolExamples.TextProcessorParameters | tool_examples.go:162-178 | An "object" schema with properties text and operation; the operation's enum is exactly the five supported operations; each required property declared. |
| ToolExamples.ExampleToolNamesDistinct | tool_examples.go:16-18 | The calculator, weather and text-processor names (lines 16-18, 92-94, 154-156) are non-empty and pairwise different. |
| ToolExamples.RegisterExampleTools | workflow_test.go:24-37 | Registering the three example tools into a new registry succeeds three times, and the catalog then maps exactly their three names to those three tools. |
| ToolExamples.ProcessText | tool_examples.go:191-209 | Fails exactly when the operation is not one of the five, with "unsupported operation: " and the operation. |
| ToolExamples.TextProcessorExecute | tool_examples.go:185-210 | The method, with its in-place reversal, returns what the text processor's execution function (`DecodeAndProcess`, lines 186-189 then `ProcessText`) specifies. That includes "invalid arguments: " followed by the decoder's message when decoding fails. |
| ToolExamples.ReverseRunes | tool_examples.go:197-200 | The two-index swap loop leaves the array holding the reversal of its old contents, after n/2 swaps rounded down. |
| ToolExamples.ReversedIndex | tool_examples.go:196-201 | `Reversed`, the value the "reverse" branch returns, keeps the length, and its position k holds the input's position n-1-k. |
| ToolExamples.ReversedTwice | tool_examples.go:196-201 | Reversing twice gives the input back. |
| ToolExamples.ReverseRoundTrip | tool_examples.go:196-201 | The "reverse" operation succeeds with the reversal of the text (as ReversedIndex characterises it), keeps the length, and applying it to its output restores the text. |
| ToolExamples.Fields | tool_examples.go:203 | Every field is non-empty and contains no whitespace. Whitespace is `IsSpace`, the code points that Go's unicode.IsSpace accepts. |
| ToolExamples.FieldsKeepText | tool_examples.go:203 | The fields, concatenated in order, are exactly the text with its whitespace removed: no character is lost, duplicated or moved. |
| ToolExamples.FieldsCountWords | tool_examples.go:203 | The number of fields equals the number of words counted by a left-to-right whitespace scanner. |
| ToolExamples.WordCountCountsWords | tool_examples.go:202-204 | "word_count" answers with the decimal rendering of the scanner's word count. |
| ToolExamples.ByteLengthBounds | tool_examples.go:205-206 | `ByteLength`, Go's `len` of a string (the sum of each code point's UTF-8 width, line 206), is between one and four times the number of code points. It equals the number of code points exactly when the text is ASCII. |
| ToolExamples.CharCountIsByteLength | tool_examples.go:205-206 | "char_count" answers with the decimal rendering of the UTF-8 byte length, not the code-point count. |
| ToolExamples.FormatDecimal | tool_examples.go:204 | %d of a count is a non-empty string of digits with no leading zero, except "0" itself. |
| ToolExamples.ParseFormatDecimal | tool_examples.go:204 | Reading a rendered count back gives the count. |
| ToolExamples.CharCountOfHundred | tool_examples.go:205-206 | The char_count of "100.00" is "6". |
| ToolExecution.DispatchAll | tool_execution.go:45-63 | A successful dispatch keeps the earlier results as a prefix and adds exactly one line per call. |
| ToolExecution.DispatchAllInOrder | tool_execution.go:45-62 | Dispatch succeeds exactly when every call of the choice executes successfully. Each call is executed as `ToGroqCall` rebuilds it (lines 47-54): its id, kind "function", its name and its arguments. Then line |acc|+i is `ResultLine` of call i (line 62), "Tool '<name>' returned: <content>", in order. |
| ToolExecution.DispatchCalls | tool_execution.go:45-63 | The inner loop, rebuilding and executing each call in turn and stopping at the first failure, returns exactly what `DispatchAll` specifies: the first error, or the earlier lines followed by one line per call. |
| ToolExecution.DispatchAllFailsAtFirst | tool_execution.go:47-60 | A failed dispatch carries the error of the first failing call, wrapped with its name; every earlier call succeeded. Since calls are rebuilt with kind "function", the unsupported-kind error never arises on this path. |
| ToolExecution.Rounds | tool_execution.go:21-66 | A successful run of the loop from round r makes more than r and at most ten rounds. |
| ToolExecution.RoundsStopAtFirstQuietRound | tool_execution.go:24-42 | Every round but the last returned tool calls. The last returned none, unless the ten-round budget ran out. Every round made had a provider success with at least one choice; an error or empty choice list would have aborted. |
| ToolExecution.RoundsGatherEveryCall | tool_execution.go:62 | The results gathered number exactly the tool calls returned across all rounds made, after the results held before. |
| ToolExecution.RoundsAnswerEveryCall | tool_execution.go:24-63 | In a successful run from round r, call k of round i is answered by line |acc| + (calls of rounds r..i-1) + k of the results (`LinesAnswerCalls`): that call, rebuilt as `ToGroqCall` does, executed successfully, and the line is its `ResultLine`. |
| ToolExecution.RunBounds | tool_execution.go:20-74 | `Run` is the specification of the whole turn. When its rounds succeed, they number between one and ten. The results hold one line per tool call returned, and call k of round i is answered by the line after those of all earlier rounds' calls and the k calls before it, with the execution's own content (`LinesAnswerCalls`). `Run` returns the summary call's answer on the prompt built from those lines. |
| ToolExecution.RunStopsAtBudget | tool_execution.go:22-24 | When every round returns tool calls and the turn succeeds, the loop makes exactly ten rounds. A failing turn aborts in the round that fails (lines 57-60) instead. |
| ToolExecution.QuietFirstRoundIsSummarized | tool_execution.go:36-42 | A first round without tool calls ends the loop, yet the turn still returns the summary call's answer on a prompt with no results, not the first response's text. |
| ToolExecution.FirstRoundFailures | tool_execution.go:26-34 | A provider error in the first round ends the turn with the generate-failed error. A response with no choices ends it with the no-choices error. |
| ToolExecution.RoundsFailAtFirstError | tool_execution.go:24-60 | A failed run from round r fails in some round i within the budget (`FailsFirstAt`). Every round from r up to i returned tool calls, and every one of those calls executed successfully (`RoundGoesOn`). The error is round i's own (`IsRoundError`): generate-failed with the provider's message, no-choices, or tool-call-failed for the first failing call of that round, after all earlier calls succeeded. The unsupported-kind error never surfaces. |
| ToolExecution.RunFailsAtFirstError | tool_execution.go:24-60 | The same for the whole turn: a failed turn returns the error of the first round that failed, in any round up to the tenth. That round is reached only through rounds whose tool calls were all returned and all succeeded, and no other error meets this description. |
| ToolExecution.FailsFirstAtUnique | tool_execution.go:24-60 | `FailsFirstAt` determines the error. The failing round is the first round that does not go on, since a round that goes on has no error (`GoesOnHasNoError`). Within that round, the failing call is the first one that fails (`RoundErrorUnique`). |
| ToolExecution.JoinAppend | tool_execution.go:70 | `Join` is strings.Join. Joining one more result line appends it after the others, behind one separator. |
| ToolExecution.FollowUpPrompt | tool_execution.go:69-70 | The follow-up prompt starts with the fixed header and ends with "\n\nOriginal question: " followed by the user's message. What lies between is exactly the result lines joined by "\n". |
| ToolExecution.GenerateWithRegistryExecution | tool_execution.go:13-75 | The tools are exported once, one per registered tool. The loop's outcome equals `Run`, the specification: the first error met (which round and which error: RunFailsAtFirstError), or the summary call's answer on the follow-up prompt (what that prompt holds: RunBounds). |

## Left out

- Locking: the registry's `sync.RWMutex` is left out. The model is sequential.
- `context.Context`: left out, since it carries no logic here.
- Go map iteration order: the export loops choose each next key arbitrarily, and their contracts hold for every order. `GenerateWithRegistryExecution` is specified against the tool list the export produced, returned as a ghost value.
- `groq.go`, the network client: left out. Its two generation entry points are the `Provider` oracle. The plain generation call's `log.Fatal` on errors ends the process. Its `output.Choices[0].Content` (`groq.go:87`) panics when the response has no choices. The model treats that call as total, so neither the exit nor the panic is modelled.
- Provider responses: each round's response is indexed only by the round number. The model does not capture a provider whose answer depends on anything else.
- `options ...llms.CallOption` (`tool_execution.go:13, 26, 73`): the options are passed unchanged to every generation call of a turn, so they are fixed for the turn. The `Provider` oracle stands for the provider under those options.
- JSON decoding of tool arguments (`json.Unmarshal`): a parameter `decode` of the text processor, which may fail. Arguments are an opaque string.
- JSON encoding of the `tool.go` structs (their `omitempty` tags): left out, since it is done by `encoding/json`. The translator's omission rule is modelled.
- Calculator arithmetic: left out. It is float64 parsing, arithmetic and `%.2f` formatting, which Dafny's unbounded reals do not match. The tool is modelled with its name, description and schema, and its execution is a parameter.
- Weather tool: left out. It reads the wall clock and uses `math.Sin`. The tool is modelled with its name, description and schema, and its execution is a parameter.
- `strings.ToUpper` / `strings.ToLower`: Unicode case mapping is library code, passed to the text processor as `toUpper` / `toLower`.
- Go strings: modelled as sequences of code points. Strings holding invalid UTF-8 are not modelled. `char_count` is modelled as the UTF-8 byte length of the code points.
- Schema `Enum` holds `[]interface{}` in Go. All values in this package are strings, so the model holds `seq<string>`.
- `ToolCall.Function` is a pointer in Go. A nil function pointer, which `Execute` would dereference, is not modelled. Likewise `llms.ToolCall.FunctionCall`, a pointer dereferenced at `tool_execution.go:51, 59, 62`: a nil one is not modelled, and every call carries a function call.
- Tool state: a tool's `execute` is a pure function of the argument bytes. In Go, `Tool.Execute` may keep state or read the environment. The weather tool reads `time.Now` (`tool_examples.go:134,140`), so two identical calls in one turn may answer differently. In the model they answer the same, including in the result lines `DispatchAllInOrder` describes.
- `ToolExecutor`: this Go interface only gives the shape of `ToolRegistry.Execute`, which is modelled. Go interfaces are modelled as datatypes with function-valued fields.
