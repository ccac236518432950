/** `CustomTool`, `CalculatorTool` and `AgentWithTools`: a registry of tools by
    name and the calculator's operation dispatch.

    Arithmetic is over `real`; Python's `float('inf')` is the separate value
    `Inf`, the only non-finite result the calculator produces.
 */
module Tools {
  import opened Wrappers

  /** A calculator result: a finite number, or positive infinity. */
  datatype Value = Num(x: real) | Inf

  /** The arguments `use_tool` passes on to `execute(operation, a, b)`. */
  datatype Call = Call(operation: string, a: real, b: real)

  /** The two kinds of tool: the calculator, and a plain `CustomTool` whose
      `execute` is not implemented. */
  datatype Kind = Calculator | Base

  datatype Tool = Tool(name: string, description: string, kind: Kind)

  /** `CalculatorTool()`. */
  const CalculatorTool := Tool("calculator", "Perform basic arithmetic calculations", Calculator)

  /** The operation names the calculator accepts. */
  const Operations: set<string> := {"add", "subtract", "multiply", "divide"}

  /** `CalculatorTool.execute(operation, a, b)`: ValueError for an operation
      outside the four; a zero divisor gives infinity whatever the dividend. */
  function Calculate(operation: string, a: real, b: real): (r: Result<Value>)
    ensures r.Err? <==> operation !in Operations
    ensures r.Err? ==> r.error == UnsupportedOperation(operation)
    ensures operation == "add" ==> r.Ok? && r.value.Num? && r.value.x - b == a
    ensures operation == "subtract" ==> r.Ok? && r.value.Num? && r.value.x + b == a
    ensures operation == "multiply" ==> r.Ok? && r.value == Num(a * b)
    ensures operation == "divide" && b == 0.0 ==> r == Ok(Inf)
    ensures operation == "divide" && b != 0.0 ==> r.Ok? && r.value.Num? && r.value.x * b == a
  {
    if operation == "add" then Ok(Num(a + b))
    else if operation == "subtract" then Ok(Num(a - b))
    else if operation == "multiply" then Ok(Num(a * b))
    else if operation == "divide" then (if b != 0.0 then Ok(Num(a / b)) else Ok(Inf))
    else Err(UnsupportedOperation(operation))
  }

  /** Adding and subtracting the same number are inverse operations, and so are
      multiplying and dividing by a non-zero one. */
  lemma CalculateInverse(a: real, b: real)
    ensures Calculate("add", a, b).Ok? && Calculate("subtract", Calculate("add", a, b).value.x, b) == Ok(Num(a))
    ensures b != 0.0 ==>
              Calculate("multiply", a, b).Ok? && Calculate("divide", Calculate("multiply", a, b).value.x, b) == Ok(Num(a))
  {
    if b != 0.0 {
      assert Calculate("multiply", a, b) == Ok(Num(a * b));
      assert Calculate("divide", a * b, b) == Ok(Num(a * b / b));
      DivideCancels(a, b);
    }
  }

  lemma DivideCancels(a: real, b: real)
    requires b != 0.0
    ensures a * b / b == a
  {
    var q := a * b / b;
    assert q * b == a * b;
    assert (q - a) * b == 0.0;
  }

  /** `tool.execute(*args)`: the calculator dispatches; the base class always
      raises NotImplementedError. */
  function Execute(tool: Tool, call: Call): (r: Result<Value>)
    ensures tool.kind == Base ==> r == Err(NotImplemented)
    ensures tool.kind == Calculator ==> r == Calculate(call.operation, call.a, call.b)
  {
    match tool.kind
    case Base => Err(NotImplemented)
    case Calculator => Calculate(call.operation, call.a, call.b)
  }

  /** `AgentWithTools.tools`. */
  type Agent = map<string, Tool>

  /** `register_tool(tool)`: the tool under its own name, replacing any tool of
      that name; every other entry is kept. */
  function RegisterTool(agent: Agent, tool: Tool): (r: Agent)
    ensures r.Keys == agent.Keys + {tool.name}
    ensures r[tool.name] == tool
    ensures forall n :: n in agent && n != tool.name ==> r[n] == agent[n]
  {
    agent[tool.name := tool]
  }

  /** A later registration under the same name wins, and the earlier one leaves
      no trace. */
  lemma RegisterOverwrites(agent: Agent, t1: Tool, t2: Tool)
    requires t1.name == t2.name
    ensures RegisterTool(RegisterTool(agent, t1), t2) == RegisterTool(agent, t2)
  {
  }

  /** `AgentWithTools()`: exactly the calculator. */
  function NewAgent(): (r: Agent)
    ensures r.Keys == {"calculator"} && r["calculator"] == CalculatorTool
  {
    RegisterTool(map[], CalculatorTool)
  }

  /** `use_tool(name, *args)`: ValueError for an unregistered name, otherwise the
      registered tool's `execute` result. */
  function UseTool(agent: Agent, name: string, call: Call): (r: Result<Value>)
    ensures name !in agent ==> r == Err(ToolNotFound(name))
    ensures name in agent ==> r == Execute(agent[name], call)
    ensures r.Err? && r.error.ToolNotFound? ==> name !in agent
  {
    if name !in agent then Err(ToolNotFound(name))
    else Execute(agent[name], call)
  }

  /** A just-registered tool is the one `use_tool` runs under its name; other
      names dispatch as before. */
  lemma UseAfterRegister(agent: Agent, tool: Tool, other: string, call: Call)
    requires other != tool.name
    ensures UseTool(RegisterTool(agent, tool), tool.name, call) == Execute(tool, call)
    ensures UseTool(RegisterTool(agent, tool), other, call) == UseTool(agent, other, call)
  {
  }

  /** A fresh agent adds with its calculator, and knows no other tool. */
  lemma FreshAgentCalculates(name: string)
    requires name != "calculator"
    ensures UseTool(NewAgent(), "calculator", Call("add", 5.0, 3.0)) == Ok(Num(8.0))
    ensures UseTool(NewAgent(), name, Call("add", 5.0, 3.0)) == Err(ToolNotFound(name))
  {
  }
}
