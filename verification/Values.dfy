/** Value types shared by the engine: JSON values, tool calls, plans and the model's view of a run. */
module Values {

  datatype Option<+T> = None | Some(value: T)

  /** A JSON value. An object is a finite map, so two objects that differ only in key order are equal. */
  datatype Json =
    | Null
    | Bool(b: bool)
    | Num(n: int)
    | Str(s: string)
    | Arr(items: seq<Json>)
    | Obj(fields: map<string, Json>)

  /** A tool invocation requested by the model. */
  datatype ToolCall = ToolCall(id: string, name: string, arguments: map<string, Json>)

  /** The model's output for one turn of the loop. */
  datatype Plan = Plan(content: string, calls: seq<ToolCall>, final: bool, output: Json, cost: int)
  {
    /** A plan that asks for no tool is final whatever its flag says. */
    predicate IsFinal() {
      final || calls == []
    }
  }

  datatype Message =
    | User(input: Json)
    | Assistant(content: string, calls: seq<ToolCall>)
    | Tool(callId: Option<string>, result: Json)

  /** The read-only view handed to the model function. */
  datatype State = State(run: string, input: Json, messages: seq<Message>)

  function ErrorResult(error: string): Json {
    Obj(map["error" := Str(error)])
  }

  function ToolErrorResult(detail: string): Json {
    Obj(map["error" := Str("tool_error"), "detail" := Str(detail)])
  }

  /** What `runs.output` holds for a final answer: objects and arrays as they are, anything else wrapped. */
  function WrapOutput(output: Json): Json {
    if output.Obj? || output.Arr? then output else Obj(map["result" := output])
  }

  // Texts the engine records

  const CANCELLED := "cancelled by request"
  const MAX_STEPS := "max steps exceeded"
  const OVER_BUDGET := "budget cap exceeded (model)"
  const NOT_STARTED := "cancelled before start"

  function UnknownAgent(agentRef: string): string {
    "unknown agent_ref: " + agentRef
  }

  function EngineError(message: string): string {
    "engine error: " + message
  }

  const POLICY_DENIED := ErrorResult("policy_denied")
  const REJECTED := ErrorResult("rejected_by_approver")
  const UNKNOWN_TOOL := ErrorResult("unknown_tool")
}
