/**
 * The tool-calling loop (tool_execution.go): ask the provider for a response with
 * the registry's tools attached, run every tool call of the first choice through
 * the registry, repeat for at most ten rounds, then make one plain generation call
 * on a prompt that lists every tool result.
 */
module ToolExecution {
  import opened Wrappers
  import opened ToolTypes
  import opened LangChain
  import opened Registry

  /** The round budget. */
  const MaxIterations: nat := 10

  /** Go's math.MaxInt on a 64-bit platform: the "calls returned" count before any round. */
  const MaxInt: int := 0x7fff_ffff_ffff_ffff

  /**
   * The generation provider, as an oracle. `generateWithTools` answers a request
   * with tools attached (GenerateWithToolsNoExecution); the last argument is the
   * index of the round, since a model may answer the same request differently each
   * time. `generate` answers a plain request (GenerateWithOptions), which never
   * reports an error to its caller.
   */
  datatype Provider = Provider(
    generateWithTools: (string, string, seq<LlmTool>, nat) -> Result<ContentResponse, string>,
    generate: (string, string) -> string)

  /** The line recorded for one tool result. */
  function ResultLine(name: string, content: string): string {
    "Tool '" + name + "' returned: " + content
  }

  /** A call as the model requested it, rebuilt as a registry call of kind "function". */
  function ToGroqCall(call: LlmToolCall): ToolCall {
    ToolCall(call.id, "function", FunctionCall(call.functionCall.name, call.functionCall.arguments))
  }

  // ---------------------------------------------------------------------------
  // Specification of the loop
  // ---------------------------------------------------------------------------

  /**
   * Runs the calls of one choice in order, appending one line per result to `acc`;
   * the first failing call ends the run with that call's error.
   */
  function DispatchAll(registry: ToolRegistry, calls: seq<LlmToolCall>, acc: seq<string>)
    : (r: Result<seq<string>, Error>)
    reads registry
    ensures r.Success? ==> |r.value| == |acc| + |calls| && r.value[..|acc|] == acc
    decreases |calls|
  {
    if calls == [] then Success(acc)
    else
      match registry.Execute(ToGroqCall(calls[0]))
      case Failure(e) => Failure(ToolCallFailed(calls[0].functionCall.name, e))
      case Success(result) =>
        DispatchAll(registry, calls[1..], acc + [ResultLine(calls[0].functionCall.name, result.content)])
  }

  /** The number of rounds made and the result lines gathered. */
  datatype Progress = Progress(rounds: nat, results: seq<string>)

  /**
   * The rounds from `round` on, with `acc` gathered so far. A round asks the
   * provider (the same prompts and tools every time), fails on a provider error or
   * an empty choice list, and otherwise dispatches the first choice's calls. The
   * loop goes on while the round returned at least one call and the budget allows.
   */
  function Rounds(registry: ToolRegistry, provider: Provider, systemPrompt: string, userMessage: string,
                  tools: seq<LlmTool>, round: nat, acc: seq<string>): (r: Result<Progress, Error>)
    reads registry
    requires round < MaxIterations
    ensures r.Success? ==> round < r.value.rounds <= MaxIterations
    decreases MaxIterations - round
  {
    match provider.generateWithTools(systemPrompt, userMessage, tools, round)
    case Failure(e) => Failure(GenerateFailed(e))
    case Success(response) =>
      if |response.choices| == 0 then Failure(NoChoices)
      else
        var calls := response.choices[0].toolCalls;
        match DispatchAll(registry, calls, acc)
        case Failure(e) => Failure(e)
        case Success(results) =>
          if |calls| == 0 || round + 1 == MaxIterations then Success(Progress(round + 1, results))
          else Rounds(registry, provider, systemPrompt, userMessage, tools, round + 1, results)
  }

  /** The whole conversation turn: the rounds, then the summary call on the follow-up prompt. */
  function Run(registry: ToolRegistry, provider: Provider, systemPrompt: string, userMessage: string,
               tools: seq<LlmTool>): Result<string, Error>
    reads registry
  {
    match Rounds(registry, provider, systemPrompt, userMessage, tools, 0, [])
    case Failure(e) => Failure(e)
    case Success(progress) => Success(provider.generate(systemPrompt, FollowUpPrompt(progress.results, userMessage)))
  }

  // ---------------------------------------------------------------------------
  // The follow-up prompt
  // ---------------------------------------------------------------------------

  const FollowUpHeader := "Based on the following tool results, please provide a comprehensive answer to the user's question:\n\n"
  const QuestionLabel := "\n\nOriginal question: "

  /** strings.Join. */
  function Join(lines: seq<string>, sep: string): string {
    if |lines| == 0 then ""
    else if |lines| == 1 then lines[0]
    else lines[0] + sep + Join(lines[1..], sep)
  }

  /** Joining one more line puts it after the others, behind one separator. */
  lemma {:induction false} JoinAppend(lines: seq<string>, line: string, sep: string)
    ensures Join(lines + [line], sep) == if lines == [] then line else Join(lines, sep) + sep + line
    decreases |lines|
  {
    if |lines| > 1 {
      JoinAppend(lines[1..], line, sep);
      assert (lines + [line])[1..] == lines[1..] + [line];
    }
  }

  /**
   * The prompt of the summary call: the fixed header, the result lines joined by
   * newlines, and the original question.
   */
  function FollowUpPrompt(results: seq<string>, userMessage: string): (prompt: string)
    ensures |prompt| >= |FollowUpHeader| + |QuestionLabel| + |userMessage|
    ensures prompt[..|FollowUpHeader|] == FollowUpHeader
    ensures prompt[|prompt| - |QuestionLabel| - |userMessage|..] == QuestionLabel + userMessage
    ensures prompt[|FollowUpHeader|..|prompt| - |QuestionLabel| - |userMessage|] == Join(results, "\n")
  {
    FollowUpHeader + Join(results, "\n") + QuestionLabel + userMessage
  }

  // ---------------------------------------------------------------------------
  // The loop
  // ---------------------------------------------------------------------------

  /**
   * What is left of the turn after `round` rounds: the rounds from there on while the
   * loop goes on, or the progress made once it has stopped.
   */
  function Remaining(registry: ToolRegistry, provider: Provider, systemPrompt: string, userMessage: string,
                     tools: seq<LlmTool>, round: nat, goesOn: bool, acc: seq<string>): Result<Progress, Error>
    reads registry
  {
    if round < MaxIterations && goesOn then Rounds(registry, provider, systemPrompt, userMessage, tools, round, acc)
    else Success(Progress(round, acc))
  }

  /**
   * The inner loop of one round: each call of the choice is rebuilt with kind
   * "function" and executed through the registry, in order; a failure ends the
   * round's dispatch with that call's error, and a success appends its line.
   */
  method DispatchCalls(registry: ToolRegistry, calls: seq<LlmToolCall>, toolResults: seq<string>)
    returns (r: Result<seq<string>, Error>)
    ensures r == DispatchAll(registry, calls, toolResults)
  {
    var results := toolResults;
    var k := 0;
    while k < |calls|
      invariant 0 <= k <= |calls|
      invariant DispatchAll(registry, calls, toolResults) == DispatchAll(registry, calls[k..], results)
    {
      var toolCall := calls[k];
      var groqToolCall := ToolCall(toolCall.id, "function",
                                   FunctionCall(toolCall.functionCall.name, toolCall.functionCall.arguments));
      var result := registry.Execute(groqToolCall);
      assert calls[k..][1..] == calls[k + 1..];
      if result.Failure? {
        return Failure(ToolCallFailed(toolCall.functionCall.name, result.error));
      }
      results := results + [ResultLine(toolCall.functionCall.name, result.value.content)];
      k := k + 1;
    }
    return Success(results);
  }

  /**
   * GenerateWithRegistryExecution. The registry's tools are exported once; the
   * outcome is the specification's, for the order in which the export listed them.
   */
  method GenerateWithRegistryExecution(provider: Provider, systemPrompt: string, userMessage: string,
                                       registry: ToolRegistry)
    returns (r: Result<string, Error>, ghost tools: seq<LlmTool>)
    requires registry.Valid()
    ensures ExportsEach(registry.tools, tools)
    ensures r == Run(registry, provider, systemPrompt, userMessage, tools)
  {
    var llmTools := registry.GetLangChainTools();
    tools := llmTools;

    var toolResults: seq<string> := [];
    var executedIterations := 0;
    var returnedToolCalls := MaxInt;
    while executedIterations < MaxIterations && returnedToolCalls > 0
      invariant 0 <= executedIterations <= MaxIterations
      invariant Rounds(registry, provider, systemPrompt, userMessage, llmTools, 0, [])
             == Remaining(registry, provider, systemPrompt, userMessage, llmTools,
                          executedIterations, returnedToolCalls > 0, toolResults)
      decreases MaxIterations - executedIterations
    {
      var response := provider.generateWithTools(systemPrompt, userMessage, llmTools, executedIterations);
      if response.Failure? {
        return Failure(GenerateFailed(response.error)), tools;
      }
      if |response.value.choices| == 0 {
        return Failure(NoChoices), tools;
      }
      var choice := response.value.choices[0];
      returnedToolCalls := |choice.toolCalls|;
      var dispatched := DispatchCalls(registry, choice.toolCalls, toolResults);
      if dispatched.Failure? {
        return Failure(dispatched.error), tools;
      }
      toolResults := dispatched.value;
      executedIterations := executedIterations + 1;
    }

    var followUpPrompt := FollowUpHeader + Join(toolResults, "\n") + QuestionLabel + userMessage;
    r := Success(provider.generate(systemPrompt, followUpPrompt));
  }

  // ---------------------------------------------------------------------------
  // Properties of the loop
  // ---------------------------------------------------------------------------

  /** The tool calls of the first choice of a response (none when it failed or has no choice). */
  function CallsOf(response: Result<ContentResponse, string>): seq<LlmToolCall> {
    if response.Success? && |response.value.choices| > 0 then response.value.choices[0].toolCalls else []
  }

  /** The number of tool calls in the first choice of a response. */
  function CallCount(response: Result<ContentResponse, string>): nat {
    |CallsOf(response)|
  }

  /** The number of tool calls the provider returns in rounds `from` to `to` - 1. */
  function TotalCalls(provider: Provider, systemPrompt: string, userMessage: string, tools: seq<LlmTool>,
                      from: nat, to: nat): nat
    decreases to - from
  {
    if from >= to then 0
    else CallCount(provider.generateWithTools(systemPrompt, userMessage, tools, from))
         + TotalCalls(provider, systemPrompt, userMessage, tools, from + 1, to)
  }

  /**
   * Runs every call in order or fails at the first failing one: the run succeeds
   * exactly when every call does, and then line i + |acc| is the line of call i.
   */
  lemma {:induction false} DispatchAllInOrder(registry: ToolRegistry, calls: seq<LlmToolCall>, acc: seq<string>)
    ensures DispatchAll(registry, calls, acc).Success?
        <==> forall i :: 0 <= i < |calls| ==> registry.Execute(ToGroqCall(calls[i])).Success?
    ensures DispatchAll(registry, calls, acc).Success? ==>
              forall i :: 0 <= i < |calls| ==>
                DispatchAll(registry, calls, acc).value[|acc| + i]
                  == ResultLine(calls[i].functionCall.name, registry.Execute(ToGroqCall(calls[i])).value.content)
    decreases |calls|
  {
    if calls != [] {
      var first := registry.Execute(ToGroqCall(calls[0]));
      if first.Success? {
        var acc' := acc + [ResultLine(calls[0].functionCall.name, first.value.content)];
        DispatchAllInOrder(registry, calls[1..], acc');
        forall i | 0 < i < |calls| ensures calls[1..][i - 1] == calls[i] { }
      }
    }
  }

  /**
   * A failed run names the first failing call and carries its error; since every call
   * is rebuilt with kind "function", that error is never the unsupported-kind error.
   */
  lemma {:induction false} DispatchAllFailsAtFirst(registry: ToolRegistry, calls: seq<LlmToolCall>, acc: seq<string>)
    requires DispatchAll(registry, calls, acc).Failure?
    ensures exists i :: (0 <= i < |calls|
      && (forall j :: 0 <= j < i ==> registry.Execute(ToGroqCall(calls[j])).Success?)
      && registry.Execute(ToGroqCall(calls[i])).Failure?
      && DispatchAll(registry, calls, acc).error
           == ToolCallFailed(calls[i].functionCall.name, registry.Execute(ToGroqCall(calls[i])).error))
    ensures !DispatchAll(registry, calls, acc).error.cause.UnsupportedToolType?
    decreases |calls|
  {
    var first := registry.Execute(ToGroqCall(calls[0]));
    if first.Success? {
      var acc' := acc + [ResultLine(calls[0].functionCall.name, first.value.content)];
      DispatchAllFailsAtFirst(registry, calls[1..], acc');
      var i :| 0 <= i < |calls[1..]|
        && (forall j :: 0 <= j < i ==> registry.Execute(ToGroqCall(calls[1..][j])).Success?)
        && registry.Execute(ToGroqCall(calls[1..][i])).Failure?
        && DispatchAll(registry, calls[1..], acc').error
             == ToolCallFailed(calls[1..][i].functionCall.name, registry.Execute(ToGroqCall(calls[1..][i])).error);
      forall j | 0 <= j < i + 1 ensures registry.Execute(ToGroqCall(calls[j])).Success? {
        if j > 0 {
          assert calls[j] == calls[1..][j - 1];
        }
      }
      assert calls[i + 1] == calls[1..][i];
    }
  }

  /**
   * The loop stops at the first round whose first choice has no tool calls, or after
   * the tenth round: every round but the last returned calls, and the last returned
   * none unless the budget ran out. A provider error or an empty choice list in any
   * round would have ended the turn with an error: every round made got choices.
   */
  lemma {:induction false} RoundsStopAtFirstQuietRound(registry: ToolRegistry, provider: Provider,
                                                       systemPrompt: string, userMessage: string,
                                                       tools: seq<LlmTool>, round: nat, acc: seq<string>)
    requires round < MaxIterations
    requires Rounds(registry, provider, systemPrompt, userMessage, tools, round, acc).Success?
    ensures var progress := Rounds(registry, provider, systemPrompt, userMessage, tools, round, acc).value;
      && (forall i :: round <= i < progress.rounds - 1 ==>
            CallCount(provider.generateWithTools(systemPrompt, userMessage, tools, i)) > 0)
      && (progress.rounds == MaxIterations
          || CallCount(provider.generateWithTools(systemPrompt, userMessage, tools, progress.rounds - 1)) == 0)
      && (forall i :: round <= i < progress.rounds ==>
            && provider.generateWithTools(systemPrompt, userMessage, tools, i).Success?
            && |provider.generateWithTools(systemPrompt, userMessage, tools, i).value.choices| > 0)
    decreases MaxIterations - round
  {
    var response := provider.generateWithTools(systemPrompt, userMessage, tools, round);
    var calls := response.value.choices[0].toolCalls;
    if |calls| > 0 && round + 1 < MaxIterations {
      var results := DispatchAll(registry, calls, acc).value;
      RoundsStopAtFirstQuietRound(registry, provider, systemPrompt, userMessage, tools, round + 1, results);
    }
  }

  /**
   * Every tool call of every round made is dispatched and leaves one result line:
   * the lines gathered number the calls returned in those rounds.
   */
  lemma {:induction false} RoundsGatherEveryCall(registry: ToolRegistry, provider: Provider,
                                                 systemPrompt: string, userMessage: string,
                                                 tools: seq<LlmTool>, round: nat, acc: seq<string>)
    requires round < MaxIterations
    requires Rounds(registry, provider, systemPrompt, userMessage, tools, round, acc).Success?
    ensures var progress := Rounds(registry, provider, systemPrompt, userMessage, tools, round, acc).value;
      && |progress.results| == |acc| + TotalCalls(provider, systemPrompt, userMessage, tools, round, progress.rounds)
      && progress.results[..|acc|] == acc
    decreases MaxIterations - round
  {
    var response := provider.generateWithTools(systemPrompt, userMessage, tools, round);
    var calls := response.value.choices[0].toolCalls;
    var results := DispatchAll(registry, calls, acc).value;
    if |calls| > 0 && round + 1 < MaxIterations {
      RoundsGatherEveryCall(registry, provider, systemPrompt, userMessage, tools, round + 1, results);
      var progress := Rounds(registry, provider, systemPrompt, userMessage, tools, round + 1, results).value;
      assert progress.results[..|acc|] == results[..|acc|];
    }
  }

  /**
   * A successful turn made between one and ten rounds, and its summary prompt lists
   * one line for every tool call the provider returned in them.
   */
  lemma {:induction false} RunBounds(registry: ToolRegistry, provider: Provider, systemPrompt: string, userMessage: string,
                  tools: seq<LlmTool>)
    requires Rounds(registry, provider, systemPrompt, userMessage, tools, 0, []).Success?
    ensures var progress := Rounds(registry, provider, systemPrompt, userMessage, tools, 0, []).value;
      && 1 <= progress.rounds <= MaxIterations
      && |progress.results| == TotalCalls(provider, systemPrompt, userMessage, tools, 0, progress.rounds)
      && LinesAnswerCalls(registry, provider, systemPrompt, userMessage, tools, 0, [], progress)
      && Run(registry, provider, systemPrompt, userMessage, tools)
           == Success(provider.generate(systemPrompt, FollowUpPrompt(progress.results, userMessage)))
  {
    RoundsGatherEveryCall(registry, provider, systemPrompt, userMessage, tools, 0, []);
    RoundsAnswerEveryCall(registry, provider, systemPrompt, userMessage, tools, 0, []);
  }

  /** Line `at` of `results` answers `call`: the call, as dispatched, succeeded with that line's content. */
  ghost predicate AnswersCall(registry: ToolRegistry, results: seq<string>, at: int, call: LlmToolCall)
    reads registry
  {
    && 0 <= at < |results|
    && registry.Execute(ToGroqCall(call)).Success?
    && results[at] == ResultLine(call.functionCall.name, registry.Execute(ToGroqCall(call)).value.content)
  }

  /**
   * The lines gathered from round `round` on answer the calls of those rounds in
   * dispatch order: call k of round i is answered by the line after `acc`, after the
   * lines of the earlier rounds, and after the lines of the calls before it.
   */
  ghost predicate LinesAnswerCalls(registry: ToolRegistry, provider: Provider, systemPrompt: string,
                                   userMessage: string, tools: seq<LlmTool>, round: nat, acc: seq<string>,
                                   progress: Progress)
    reads registry
  {
    forall i, k :: round <= i < progress.rounds
                   && 0 <= k < |CallsOf(provider.generateWithTools(systemPrompt, userMessage, tools, i))| ==>
      AnswersCall(registry, progress.results,
                  |acc| + TotalCalls(provider, systemPrompt, userMessage, tools, round, i) + k,
                  CallsOf(provider.generateWithTools(systemPrompt, userMessage, tools, i))[k])
  }

  /** The lines one dispatch adds, kept as a prefix of a longer list, answer that dispatch's calls. */
  lemma {:induction false} RoundAnswered(registry: ToolRegistry, calls: seq<LlmToolCall>, acc: seq<string>,
                      final: seq<string>, k: nat)
    requires DispatchAll(registry, calls, acc).Success?
    requires |DispatchAll(registry, calls, acc).value| <= |final|
    requires final[..|DispatchAll(registry, calls, acc).value|] == DispatchAll(registry, calls, acc).value
    requires k < |calls|
    ensures AnswersCall(registry, final, |acc| + k, calls[k])
  {
    DispatchAllInOrder(registry, calls, acc);
    var results := DispatchAll(registry, calls, acc).value;
    assert final[|acc| + k] == results[|acc| + k];
  }

  /** One step of a successful run: the round got choices, its dispatch succeeded, and the run went on or stopped. */
  lemma RoundsStep(registry: ToolRegistry, provider: Provider, systemPrompt: string, userMessage: string,
                   tools: seq<LlmTool>, round: nat, acc: seq<string>)
    requires round < MaxIterations
    requires Rounds(registry, provider, systemPrompt, userMessage, tools, round, acc).Success?
    ensures var response := provider.generateWithTools(systemPrompt, userMessage, tools, round);
      && response.Success? && |response.value.choices| > 0
      && DispatchAll(registry, CallsOf(response), acc).Success?
      && var results := DispatchAll(registry, CallsOf(response), acc).value;
         if CallCount(response) > 0 && round + 1 < MaxIterations then
           Rounds(registry, provider, systemPrompt, userMessage, tools, round, acc)
             == Rounds(registry, provider, systemPrompt, userMessage, tools, round + 1, results)
         else
           Rounds(registry, provider, systemPrompt, userMessage, tools, round, acc)
             == Success(Progress(round + 1, results))
  {
  }

  /** A call of a later round is answered where the lines of the rounds after `round` place it. */
  lemma {:induction false} LaterRoundAnswered(registry: ToolRegistry, provider: Provider, systemPrompt: string, userMessage: string,
                           tools: seq<LlmTool>, round: nat, acc: seq<string>, results: seq<string>,
                           progress: Progress, i: nat, k: nat)
    requires round < i < progress.rounds
    requires |results| == |acc| + CallCount(provider.generateWithTools(systemPrompt, userMessage, tools, round))
    requires LinesAnswerCalls(registry, provider, systemPrompt, userMessage, tools, round + 1, results, progress)
    requires k < |CallsOf(provider.generateWithTools(systemPrompt, userMessage, tools, i))|
    ensures AnswersCall(registry, progress.results,
                        |acc| + TotalCalls(provider, systemPrompt, userMessage, tools, round, i) + k,
                        CallsOf(provider.generateWithTools(systemPrompt, userMessage, tools, i))[k])
  {
    var call := CallsOf(provider.generateWithTools(systemPrompt, userMessage, tools, i))[k];
    var before := TotalCalls(provider, systemPrompt, userMessage, tools, round + 1, i);
    assert TotalCalls(provider, systemPrompt, userMessage, tools, round, i)
        == CallCount(provider.generateWithTools(systemPrompt, userMessage, tools, round)) + before;
    var at := |results| + before + k;
    assert AnswersCall(registry, progress.results, at, call);
    assert |acc| + TotalCalls(provider, systemPrompt, userMessage, tools, round, i) + k == at;
  }

  /**
   * Round `round` dispatched its calls after `acc` into `results`, which `progress`
   * keeps as a prefix, and the lines of the later rounds answer their calls.
   */
  ghost predicate AnsweredAfter(registry: ToolRegistry, provider: Provider, systemPrompt: string, userMessage: string,
                                tools: seq<LlmTool>, round: nat, acc: seq<string>, results: seq<string>,
                                progress: Progress)
    reads registry
  {
    && DispatchAll(registry, CallsOf(provider.generateWithTools(systemPrompt, userMessage, tools, round)), acc)
       == Success(results)
    && |results| <= |progress.results| && progress.results[..|results|] == results
    && (round + 1 < progress.rounds ==>
          LinesAnswerCalls(registry, provider, systemPrompt, userMessage, tools, round + 1, results, progress))
  }

  /** Call k of round i, from round `round` on, is answered by its line: the cases of CombineAnswers. */
  lemma {:induction false} AnswerAt(registry: ToolRegistry, provider: Provider, systemPrompt: string,
                                    userMessage: string, tools: seq<LlmTool>, round: nat, acc: seq<string>,
                                    results: seq<string>, progress: Progress, i: nat, k: int)
    requires AnsweredAfter(registry, provider, systemPrompt, userMessage, tools, round, acc, results, progress)
    ensures round <= i < progress.rounds
              && 0 <= k < |CallsOf(provider.generateWithTools(systemPrompt, userMessage, tools, i))| ==>
            AnswersCall(registry, progress.results,
                        |acc| + TotalCalls(provider, systemPrompt, userMessage, tools, round, i) + k,
                        CallsOf(provider.generateWithTools(systemPrompt, userMessage, tools, i))[k])
  {
    if round <= i < progress.rounds && 0 <= k < |CallsOf(provider.generateWithTools(systemPrompt, userMessage, tools, i))| {
      if i == round {
        assert TotalCalls(provider, systemPrompt, userMessage, tools, round, i) == 0;
        RoundAnswered(registry, CallsOf(provider.generateWithTools(systemPrompt, userMessage, tools, round)),
                      acc, progress.results, k);
      } else {
        LaterRoundAnswered(registry, provider, systemPrompt, userMessage, tools, round, acc, results, progress, i, k);
      }
    }
  }

  /**
   * The lines of round `round` followed by the lines of the rounds after it answer
   * every call from round `round` on.
   */
  lemma CombineAnswers(registry: ToolRegistry, provider: Provider, systemPrompt: string, userMessage: string,
                       tools: seq<LlmTool>, round: nat, acc: seq<string>, results: seq<string>,
                       progress: Progress)
    requires AnsweredAfter(registry, provider, systemPrompt, userMessage, tools, round, acc, results, progress)
    ensures LinesAnswerCalls(registry, provider, systemPrompt, userMessage, tools, round, acc, progress)
  {
    forall i: nat, k: int {
      AnswerAt(registry, provider, systemPrompt, userMessage, tools, round, acc, results, progress, i, k);
    }
  }

  /**
   * Across a whole turn, every tool call of every round is answered by its own line,
   * round after round and call after call, in the order of dispatch.
   */
  lemma {:induction false} RoundsAnswerEveryCall(registry: ToolRegistry, provider: Provider,
                                                 systemPrompt: string, userMessage: string,
                                                 tools: seq<LlmTool>, round: nat, acc: seq<string>)
    requires round < MaxIterations
    requires Rounds(registry, provider, systemPrompt, userMessage, tools, round, acc).Success?
    ensures LinesAnswerCalls(registry, provider, systemPrompt, userMessage, tools, round, acc,
                             Rounds(registry, provider, systemPrompt, userMessage, tools, round, acc).value)
    decreases MaxIterations - round
  {
    RoundsStep(registry, provider, systemPrompt, userMessage, tools, round, acc);
    var response := provider.generateWithTools(systemPrompt, userMessage, tools, round);
    var results := DispatchAll(registry, CallsOf(response), acc).value;
    if CallCount(response) > 0 && round + 1 < MaxIterations {
      RoundsAnswerEveryCall(registry, provider, systemPrompt, userMessage, tools, round + 1, results);
      RoundsGatherEveryCall(registry, provider, systemPrompt, userMessage, tools, round + 1, results);
    }
    CombineAnswers(registry, provider, systemPrompt, userMessage, tools, round, acc, results,
                   Rounds(registry, provider, systemPrompt, userMessage, tools, round, acc).value);
  }

  /**
   * The error a failed round ends the turn with: the provider's error, the
   * no-choices error, or the error of the first call of the round's first choice
   * that fails, wrapped with that call's name.
   */
  ghost predicate IsRoundError(registry: ToolRegistry, response: Result<ContentResponse, string>, e: Error)
    reads registry
  {
    match response
    case Failure(message) => e == GenerateFailed(message)
    case Success(r) =>
      if r.choices == [] then e == NoChoices
      else
        var calls := r.choices[0].toolCalls;
        exists k :: 0 <= k < |calls|
          && (forall j :: 0 <= j < k ==> registry.Execute(ToGroqCall(calls[j])).Success?)
          && registry.Execute(ToGroqCall(calls[k])).Failure?
          && e == ToolCallFailed(calls[k].functionCall.name, registry.Execute(ToGroqCall(calls[k])).error)
  }

  /** A round's error is never the unsupported-kind error: every call is dispatched with kind "function". */
  lemma RoundErrorNotUnsupported(registry: ToolRegistry, response: Result<ContentResponse, string>, e: Error)
    requires IsRoundError(registry, response, e)
    ensures e.ToolCallFailed? ==> !e.cause.UnsupportedToolType?
  {
    if response.Success? && response.value.choices != [] {
      var calls := response.value.choices[0].toolCalls;
      var k :| 0 <= k < |calls|
        && (forall j :: 0 <= j < k ==> registry.Execute(ToGroqCall(calls[j])).Success?)
        && registry.Execute(ToGroqCall(calls[k])).Failure?
        && e == ToolCallFailed(calls[k].functionCall.name, registry.Execute(ToGroqCall(calls[k])).error);
      assert ToGroqCall(calls[k]).kind == "function";
    }
  }

  /** One step of a failed run: either this round failed, or it dispatched every call and a later round failed. */
  lemma RoundsFailStep(registry: ToolRegistry, provider: Provider, systemPrompt: string, userMessage: string,
                       tools: seq<LlmTool>, round: nat, acc: seq<string>)
    requires round < MaxIterations
    requires Rounds(registry, provider, systemPrompt, userMessage, tools, round, acc).Failure?
    ensures var response := provider.generateWithTools(systemPrompt, userMessage, tools, round);
      || IsRoundError(registry, response, Rounds(registry, provider, systemPrompt, userMessage, tools, round, acc).error)
      || (&& CallCount(response) > 0 && round + 1 < MaxIterations
          && DispatchAll(registry, CallsOf(response), acc).Success?
          && Rounds(registry, provider, systemPrompt, userMessage, tools, round, acc)
             == Rounds(registry, provider, systemPrompt, userMessage, tools, round + 1,
                       DispatchAll(registry, CallsOf(response), acc).value))
  {
    var response := provider.generateWithTools(systemPrompt, userMessage, tools, round);
    if response.Success? && response.value.choices != [] {
      var calls := response.value.choices[0].toolCalls;
      assert CallsOf(response) == calls;
      if DispatchAll(registry, calls, acc).Failure? {
        DispatchAllFailsAtFirst(registry, calls, acc);
      }
    }
  }

  /**
   * A round that lets the loop go on: the response returned tool calls and every
   * one of them, rebuilt and executed in turn, succeeded.
   */
  ghost predicate RoundGoesOn(registry: ToolRegistry, response: Result<ContentResponse, string>)
    reads registry
  {
    && CallCount(response) > 0
    && forall k :: 0 <= k < |CallsOf(response)| ==> registry.Execute(ToGroqCall(CallsOf(response)[k])).Success?
  }

  /**
   * Run from round `round`, the turn fails with `e` in round i: every round before
   * i returned tool calls that all succeeded, and `e` is round i's error.
   */
  ghost predicate FailsAt(registry: ToolRegistry, provider: Provider, systemPrompt: string,
                          userMessage: string, tools: seq<LlmTool>, round: nat, i: nat, e: Error)
    reads registry
  {
    && round <= i < MaxIterations
    && (forall j :: round <= j < i ==>
          RoundGoesOn(registry, provider.generateWithTools(systemPrompt, userMessage, tools, j)))
    && IsRoundError(registry, provider.generateWithTools(systemPrompt, userMessage, tools, i), e)
  }

  /** The turn, run from round `round`, fails with `e` in some round within the budget. */
  ghost predicate FailsFirstAt(registry: ToolRegistry, provider: Provider, systemPrompt: string,
                               userMessage: string, tools: seq<LlmTool>, round: nat, e: Error)
    reads registry
  {
    exists i: nat :: FailsAt(registry, provider, systemPrompt, userMessage, tools, round, i, e)
  }

  /** A round that goes on has no error of its own. */
  lemma {:induction false} GoesOnHasNoError(registry: ToolRegistry, response: Result<ContentResponse, string>,
                                            e: Error)
    requires RoundGoesOn(registry, response)
    ensures !IsRoundError(registry, response, e)
  {
    if IsRoundError(registry, response, e) {
      var calls := response.value.choices[0].toolCalls;
      assert CallsOf(response) == calls;
      var k :| 0 <= k < |calls| && registry.Execute(ToGroqCall(calls[k])).Failure?;
      assert false;
    }
  }

  /** A round has at most one error: the first failing call is unique. */
  lemma {:induction false} RoundErrorUnique(registry: ToolRegistry, response: Result<ContentResponse, string>,
                                            e1: Error, e2: Error)
    requires IsRoundError(registry, response, e1) && IsRoundError(registry, response, e2)
    ensures e1 == e2
  {
    if response.Success? && response.value.choices != [] {
      var calls := response.value.choices[0].toolCalls;
      var k1 :| 0 <= k1 < |calls|
        && (forall j :: 0 <= j < k1 ==> registry.Execute(ToGroqCall(calls[j])).Success?)
        && registry.Execute(ToGroqCall(calls[k1])).Failure?
        && e1 == ToolCallFailed(calls[k1].functionCall.name, registry.Execute(ToGroqCall(calls[k1])).error);
      var k2 :| 0 <= k2 < |calls|
        && (forall j :: 0 <= j < k2 ==> registry.Execute(ToGroqCall(calls[j])).Success?)
        && registry.Execute(ToGroqCall(calls[k2])).Failure?
        && e2 == ToolCallFailed(calls[k2].functionCall.name, registry.Execute(ToGroqCall(calls[k2])).error);
      assert k1 == k2;
    }
  }

  /** Two failing rounds of one turn are the same round, with the same error. */
  lemma {:induction false} FailsAtUnique(registry: ToolRegistry, provider: Provider, systemPrompt: string,
                                         userMessage: string, tools: seq<LlmTool>, round: nat,
                                         i1: nat, i2: nat, e1: Error, e2: Error)
    requires FailsAt(registry, provider, systemPrompt, userMessage, tools, round, i1, e1)
    requires FailsAt(registry, provider, systemPrompt, userMessage, tools, round, i2, e2)
    ensures i1 == i2 && e1 == e2
  {
    if i1 < i2 {
      GoesOnHasNoError(registry, provider.generateWithTools(systemPrompt, userMessage, tools, i1), e1);
    } else if i2 < i1 {
      GoesOnHasNoError(registry, provider.generateWithTools(systemPrompt, userMessage, tools, i2), e2);
    } else {
      RoundErrorUnique(registry, provider.generateWithTools(systemPrompt, userMessage, tools, i1), e1, e2);
    }
  }

  /** FailsFirstAt determines the error: a turn that fails, fails with one error only. */
  lemma FailsFirstAtUnique(registry: ToolRegistry, provider: Provider, systemPrompt: string,
                           userMessage: string, tools: seq<LlmTool>, round: nat, e1: Error, e2: Error)
    requires FailsFirstAt(registry, provider, systemPrompt, userMessage, tools, round, e1)
    requires FailsFirstAt(registry, provider, systemPrompt, userMessage, tools, round, e2)
    ensures e1 == e2
  {
    var i1: nat :| FailsAt(registry, provider, systemPrompt, userMessage, tools, round, i1, e1);
    var i2: nat :| FailsAt(registry, provider, systemPrompt, userMessage, tools, round, i2, e2);
    FailsAtUnique(registry, provider, systemPrompt, userMessage, tools, round, i1, i2, e1, e2);
  }

  /** A round that goes on moves the failing round one further on. */
  lemma {:induction false} FailsLater(registry: ToolRegistry, provider: Provider, systemPrompt: string,
                                      userMessage: string, tools: seq<LlmTool>, round: nat, e: Error)
    requires RoundGoesOn(registry, provider.generateWithTools(systemPrompt, userMessage, tools, round))
    requires FailsFirstAt(registry, provider, systemPrompt, userMessage, tools, round + 1, e)
    ensures FailsFirstAt(registry, provider, systemPrompt, userMessage, tools, round, e)
  {
    var i: nat :| FailsAt(registry, provider, systemPrompt, userMessage, tools, round + 1, i, e);
    assert FailsAt(registry, provider, systemPrompt, userMessage, tools, round, i, e);
  }

  /**
   * A failed turn fails in some round i within the budget: every earlier round
   * returned tool calls that all succeeded, and the error is round i's own, which
   * FailsFirstAtUnique shows is determined. The unsupported-kind error never surfaces.
   */
  lemma {:induction false} RoundsFailAtFirstError(registry: ToolRegistry, provider: Provider,
                                                  systemPrompt: string, userMessage: string,
                                                  tools: seq<LlmTool>, round: nat, acc: seq<string>)
    requires round < MaxIterations
    requires Rounds(registry, provider, systemPrompt, userMessage, tools, round, acc).Failure?
    ensures var e := Rounds(registry, provider, systemPrompt, userMessage, tools, round, acc).error;
      && FailsFirstAt(registry, provider, systemPrompt, userMessage, tools, round, e)
      && (e.ToolCallFailed? ==> !e.cause.UnsupportedToolType?)
    decreases MaxIterations - round
  {
    RoundsFailStep(registry, provider, systemPrompt, userMessage, tools, round, acc);
    var response := provider.generateWithTools(systemPrompt, userMessage, tools, round);
    var e := Rounds(registry, provider, systemPrompt, userMessage, tools, round, acc).error;
    if IsRoundError(registry, response, e) {
      RoundErrorNotUnsupported(registry, response, e);
      assert FailsAt(registry, provider, systemPrompt, userMessage, tools, round, round, e);
    } else {
      var results := DispatchAll(registry, CallsOf(response), acc).value;
      DispatchAllInOrder(registry, CallsOf(response), acc);
      RoundsFailAtFirstError(registry, provider, systemPrompt, userMessage, tools, round + 1, results);
      FailsLater(registry, provider, systemPrompt, userMessage, tools, round, e);
    }
  }

  /**
   * A failed turn returns the error of the first round that failed, whichever round
   * that is, and no other error fits that description; it makes no summary call.
   */
  lemma RunFailsAtFirstError(registry: ToolRegistry, provider: Provider, systemPrompt: string,
                             userMessage: string, tools: seq<LlmTool>)
    requires Run(registry, provider, systemPrompt, userMessage, tools).Failure?
    ensures var e := Run(registry, provider, systemPrompt, userMessage, tools).error;
      && FailsFirstAt(registry, provider, systemPrompt, userMessage, tools, 0, e)
      && (forall other :: FailsFirstAt(registry, provider, systemPrompt, userMessage, tools, 0, other) ==> other == e)
      && (e.ToolCallFailed? ==> !e.cause.UnsupportedToolType?)
  {
    RoundsFailAtFirstError(registry, provider, systemPrompt, userMessage, tools, 0, []);
    var e := Run(registry, provider, systemPrompt, userMessage, tools).error;
    forall other | FailsFirstAt(registry, provider, systemPrompt, userMessage, tools, 0, other) ensures other == e {
      FailsFirstAtUnique(registry, provider, systemPrompt, userMessage, tools, 0, other, e);
    }
  }

  /**
   * When the provider asks for tools in every round, the loop spends the whole
   * budget of ten rounds and still ends with the summary call.
   */
  lemma {:induction false} RunStopsAtBudget(registry: ToolRegistry, provider: Provider, systemPrompt: string, userMessage: string,
                         tools: seq<LlmTool>)
    requires forall i :: 0 <= i < MaxIterations ==>
               CallCount(provider.generateWithTools(systemPrompt, userMessage, tools, i)) > 0
    requires Rounds(registry, provider, systemPrompt, userMessage, tools, 0, []).Success?
    ensures Rounds(registry, provider, systemPrompt, userMessage, tools, 0, []).value.rounds == MaxIterations
  {
    RoundsStopAtFirstQuietRound(registry, provider, systemPrompt, userMessage, tools, 0, []);
  }

  /**
   * A first round without tool calls ends the loop, yet the turn still makes the
   * summary call on a prompt without result lines: the first response's own text is
   * not what the turn returns.
   */
  lemma QuietFirstRoundIsSummarized(registry: ToolRegistry, provider: Provider, systemPrompt: string,
                                    userMessage: string, tools: seq<LlmTool>)
    requires provider.generateWithTools(systemPrompt, userMessage, tools, 0).Success?
    requires |provider.generateWithTools(systemPrompt, userMessage, tools, 0).value.choices| > 0
    requires provider.generateWithTools(systemPrompt, userMessage, tools, 0).value.choices[0].toolCalls == []
    ensures Run(registry, provider, systemPrompt, userMessage, tools)
         == Success(provider.generate(systemPrompt, FollowUpPrompt([], userMessage)))
  {
  }

  /**
   * A provider error or an empty choice list in the first round ends the turn with
   * that error, before any tool runs and without the summary call.
   */
  lemma FirstRoundFailures(registry: ToolRegistry, provider: Provider, systemPrompt: string,
                           userMessage: string, tools: seq<LlmTool>)
    ensures var first := provider.generateWithTools(systemPrompt, userMessage, tools, 0);
      && (first.Failure? ==> Run(registry, provider, systemPrompt, userMessage, tools) == Failure(GenerateFailed(first.error)))
      && (first.Success? && first.value.choices == [] ==>
            Run(registry, provider, systemPrompt, userMessage, tools) == Failure(NoChoices))
  {
  }
}
