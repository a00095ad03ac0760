// Tool resolution: a tool call from the model is looked up by name in the tool registry and
// run. Whatever happens, the caller gets a tool-result message back and never an exception:
// an unknown name and any failure of validation or execution become error-tagged results.

module Tools {
  import opened Wrappers
  import opened Messages
  import opened Capabilities

  /** What validating and running the registered tool does: it returns a result, or throws. */
  datatype ToolOutcome = Returns(result: ToolExecutionResult) | Throws(error: Thrown)

  /** `buildToolError`: an error-tagged result for the call, carrying one text block. */
  function BuildToolError(call: ToolCall, text: string): (r: ToolResult)
    ensures r.toolCallId == call.id && r.toolName == call.name
    ensures r.content == [TextBlock(text)] && r.isError
  {
    ToolResult(call.id, call.name, [TextBlock(text)], true, None)
  }

  /** The text of a caught error: an `Error`'s message, else a fixed sentence. */
  function FailureText(error: Thrown): string
  {
    match error
    case Error(message) => message
    case NonError => "Tool execution failed."
  }

  /** A returned result with a missing (empty) id or name filled in from the call. */
  function FillIds(result: ToolExecutionResult, call: ToolCall): (r: ToolExecutionResult)
    ensures r.toolMessage.toolCallId == (if result.toolMessage.toolCallId == "" then call.id else result.toolMessage.toolCallId)
    ensures r.toolMessage.toolName == (if result.toolMessage.toolName == "" then call.name else result.toolMessage.toolName)
    ensures r.files == result.files
    ensures r.toolMessage.content == result.toolMessage.content && r.toolMessage.isError == result.toolMessage.isError
    ensures r.toolMessage.details == result.toolMessage.details
  {
    var m := result.toolMessage;
    var m1 := if m.toolCallId == "" then m.(toolCallId := call.id) else m;
    var m2 := if m1.toolName == "" then m1.(toolName := call.name) else m1;
    result.(toolMessage := m2)
  }

  /** `ToolRegistry.execute`: the tool registered under the call's name is run with the
      given outcome. The result is always a value; an unknown tool runs nothing. */
  function Execute(registry: Registry<ToolDefinition>, call: ToolCall, outcome: ToolOutcome): (r: ToolExecutionResult)
    reads registry
    ensures registry.Get(call.name).None? ==>
      r == ToolExecutionResult(BuildToolError(call, "Unknown tool: " + call.name), None)
    ensures registry.Get(call.name).Some? && outcome.Throws? ==>
      r == ToolExecutionResult(BuildToolError(call, FailureText(outcome.error)), None)
    ensures registry.Get(call.name).Some? && outcome.Returns? ==> r == FillIds(outcome.result, call)
  {
    match registry.Get(call.name)
    case None => ToolExecutionResult(BuildToolError(call, "Unknown tool: " + call.name), None)
    case Some(_) =>
      match outcome
      case Returns(result) => FillIds(result, call)
      case Throws(error) => ToolExecutionResult(BuildToolError(call, FailureText(error)), None)
  }

  /** Every result of `execute` names a call id and a tool name when the call does. */
  lemma ExecuteIdentifiesCall(registry: Registry<ToolDefinition>, call: ToolCall, outcome: ToolOutcome)
    requires call.id != "" && call.name != ""
    ensures Execute(registry, call, outcome).toolMessage.toolCallId != ""
    ensures Execute(registry, call, outcome).toolMessage.toolName != ""
  {
  }

  /** An error result is flagged as an error unless the tool itself returned normally. */
  lemma ExecuteErrorTagged(registry: Registry<ToolDefinition>, call: ToolCall, outcome: ToolOutcome)
    requires registry.Get(call.name).None? || outcome.Throws?
    ensures Execute(registry, call, outcome).toolMessage.isError
    ensures Execute(registry, call, outcome).files.None?
    ensures |Execute(registry, call, outcome).toolMessage.content| == 1
  {
  }

  /** `listTools`: the tool schema of every registered definition, in registration order. */
  function ListTools(registry: Registry<ToolDefinition>): (tools: seq<Tool>)
    reads registry
    requires registry.Valid()
    ensures |tools| == |registry.entries.keys|
    ensures forall i :: 0 <= i < |tools| ==> registry.Get(registry.entries.keys[i]) == Some(ToolDefinition(tools[i]))
  {
    Schemas(registry.List())
  }

  function Schemas(definitions: seq<ToolDefinition>): (tools: seq<Tool>)
    ensures |tools| == |definitions|
    ensures forall i :: 0 <= i < |definitions| ==> tools[i] == definitions[i].tool
  {
    if definitions == [] then [] else [definitions[0].tool] + Schemas(definitions[1..])
  }
}
