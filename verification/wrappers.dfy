/** Failure-carrying results shared by every module of the model.

    Python reports errors by raising; here each raising path returns `Err`
    with a tag saying which exception the source raises and why.
 */
module Wrappers {

  datatype Option<+T> = None | Some(value: T) {
    function GetOr(default: T): T {
      match this
      case Some(v) => v
      case None => default
    }
  }

  /** The exceptions the modelled code raises. */
  datatype Error =
    /** ValueError from `range(..., 0)`: a zero step. */
    | ZeroStep
    /** ValueError from `PromptTemplate.format`: the placeholders with no supplied value. */
    | MissingVariables(names: set<string>)
    /** ValueError from `PromptManager.get_prompt` / `optimize_prompt`. */
    | TemplateNotFound(name: string)
    /** ValueError from `AgentWithTools.use_tool`. */
    | ToolNotFound(name: string)
    /** ValueError from `CalculatorTool.execute`. */
    | UnsupportedOperation(operation: string)
    /** NotImplementedError from the base `CustomTool.execute`. */
    | NotImplemented

  datatype Result<+T> = Ok(value: T) | Err(error: Error)
}
