/** Values shared by both tools: optional values, the two-variant result of
    one request, the reply of the remote service and the payload a tool call
    hands back to the host. */
module Outcomes {

  datatype Option<+T> = None | Some(value: T)

  /** The outcome of one request: the response text, or the message of the
      exception that the request raised. */
  datatype Result<+T> = Ok(value: T) | Err(message: string)

  /** What one POST to the remote service produced: a response with a status
      code and a body text, or an exception (network failure, serialisation
      error, ...) of which only its string form is observable. */
  datatype Reply = Response(status: int, text: string) | Raised(error: string)

  /** The mapping `{name, content}` a tool call returns to the host. */
  datatype ToolOutput = ToolOutput(name: string, content: string)

  predicate IsPrefix(p: string, s: string) {
    |p| <= |s| && s[..|p|] == p
  }

  /** The `execute` wrapper of a tool: a success carries the response text
      unchanged, every failure becomes `failurePrefix + message`, and the
      tool name is always reported. Every failure of the request is
      reported this way; only interruptions outside Python's `Exception`
      hierarchy (cancellation, `KeyboardInterrupt`, `SystemExit`) are not. */
  function ToToolOutput(toolName: string, failurePrefix: string, r: Result<string>): (out: ToolOutput)
    ensures out.name == toolName
    ensures r.Ok? ==> out.content == r.value
    ensures r.Err? ==> IsPrefix(failurePrefix, out.content)
                       && out.content[|failurePrefix|..] == r.message
  {
    match r
    case Ok(text) => ToolOutput(toolName, text)
    case Err(message) => ToolOutput(toolName, failurePrefix + message)
  }
}
