/**
 * Tool dispatch inside `processQuery`: every tool call of a
 * `requires_action` batch is parsed, run through the tool of that name, and
 * its stringified result is paired with the call's id. A malformed argument
 * text or an unknown tool name throws, which ends the whole turn.
 */
module Dispatch {

  import opened Wrappers
  import opened Candidates

  /** One pending call: `toolCall.id`, `toolCall.function.name`, `toolCall.function.arguments`. */
  datatype ToolCall = ToolCall(id: string, name: string, arguments: string)

  /** `{tool_call_id, output}`. */
  datatype ToolOutput = ToolOutput(toolCallId: string, output: string)

  /** A tool: the arguments object in, the value to stringify out. */
  type Tool = ToolArgs -> ToolResult

  /**
   * The collaborators the dispatch step calls but does not define:
   * `JSON.parse` of the argument text (`None` when it throws or yields no
   * object to destructure), the `tools` table looked up by name, and
   * `JSON.stringify`.
   */
  datatype Collaborators = Collaborators(
    parseArguments: string -> Option<ToolArgs>,
    tools: map<string, Tool>,
    stringify: ToolResult -> string)

  const FetchCandidatesTool: string := "fetchCandidates"
  const SemanticsTool: string := "fetchCandidatesFromSemantics"

  /**
   * The module's `tools` object over the given database: `fetchCandidates`,
   * and the stub `fetchCandidatesFromSemantics`, whose empty body returns
   * `undefined` whatever it is given.
   */
  function SourceTools(runQuery: string -> DbOutcome): (m: map<string, Tool>)
    ensures m.Keys == {FetchCandidatesTool, SemanticsTool}
    ensures forall args :: m[FetchCandidatesTool](args) == FetchCandidates(args, runQuery)
    ensures forall args :: m[SemanticsTool](args) == NoValue
  {
    map[FetchCandidatesTool := (args: ToolArgs) => FetchCandidates(args, runQuery),
        SemanticsTool := (args: ToolArgs) => NoValue]
  }

  /**
   * The output of one call, or `None` when the call throws: the argument
   * text is parsed first, then the tool is looked up by name
   * (`tools[functionName]` is `undefined` for any other name, and calling
   * it throws).
   */
  function CallTool(call: ToolCall, env: Collaborators): (r: Option<ToolOutput>)
    ensures r.Some? <==> env.parseArguments(call.arguments).Some? && call.name in env.tools
    ensures r.Some? ==> r.value.toolCallId == call.id
    ensures r.Some? ==>
      r.value.output == env.stringify(env.tools[call.name](env.parseArguments(call.arguments).value))
  {
    var args :- env.parseArguments(call.arguments);
    if call.name in env.tools then
      Some(ToolOutput(call.id, env.stringify(env.tools[call.name](args))))
    else
      None
  }

  /**
   * Under the module's own tool table, a call succeeds exactly when its
   * arguments parse and it names one of the two tools; its output is the
   * stringified result of `fetchCandidates` on those arguments, or the
   * stringified `undefined` of the stub.
   */
  lemma CallSourceTool(call: ToolCall, parse: string -> Option<ToolArgs>,
                       runQuery: string -> DbOutcome, stringify: ToolResult -> string)
    ensures CallTool(call, Collaborators(parse, SourceTools(runQuery), stringify))
         == if parse(call.arguments).Some? && call.name == FetchCandidatesTool
            then Some(ToolOutput(call.id, stringify(FetchCandidates(parse(call.arguments).value, runQuery))))
            else if parse(call.arguments).Some? && call.name == SemanticsTool
            then Some(ToolOutput(call.id, stringify(NoValue)))
            else None
  {
  }

  /**
   * The outputs of a whole batch: one per call, in the calls' order, each
   * carrying its call's id; `None` when any call throws.
   */
  function BatchOutputs(calls: seq<ToolCall>, env: Collaborators): (r: Option<seq<ToolOutput>>)
    ensures r.Some? <==> forall i :: 0 <= i < |calls| ==> CallTool(calls[i], env).Some?
    ensures r.Some? ==> |r.value| == |calls|
    ensures r.Some? ==> forall i :: 0 <= i < |calls| ==>
      r.value[i] == CallTool(calls[i], env).value && r.value[i].toolCallId == calls[i].id
    decreases |calls|
  {
    if |calls| == 0 then Some([])
    else
      var first :- CallTool(calls[0], env);
      var rest :- BatchOutputs(calls[1..], env);
      assert forall i :: 1 <= i < |calls| ==> calls[i] == calls[1..][i - 1];
      Some([first] + rest)
  }

  /**
   * The `for` loop over `toolCalls`: pushes one output per call and stops
   * at the first call that throws.
   */
  method DispatchBatch(calls: seq<ToolCall>, env: Collaborators) returns (outputs: Option<seq<ToolOutput>>)
    ensures outputs == BatchOutputs(calls, env)
    ensures outputs.Some? ==>
      |outputs.value| == |calls| && forall i :: 0 <= i < |calls| ==> outputs.value[i].toolCallId == calls[i].id
  {
    var toolOutputs: seq<ToolOutput> := [];
    for i := 0 to |calls|
      invariant |toolOutputs| == i
      invariant forall j :: 0 <= j < i ==> CallTool(calls[j], env) == Some(toolOutputs[j])
    {
      var output := CallTool(calls[i], env);
      if output.None? {
        return None;
      }
      toolOutputs := toolOutputs + [output.value];
    }
    outputs := Some(toolOutputs);
    BatchOutputsUnique(calls, env, toolOutputs);
  }

  /** The outputs a batch yields are the only ones consistent with its calls. */
  lemma BatchOutputsUnique(calls: seq<ToolCall>, env: Collaborators, outs: seq<ToolOutput>)
    requires |outs| == |calls|
    requires forall j :: 0 <= j < |calls| ==> CallTool(calls[j], env) == Some(outs[j])
    ensures BatchOutputs(calls, env) == Some(outs)
  {
    var r := BatchOutputs(calls, env);
    assert r.Some?;
    assert r.value == outs;
  }
}
