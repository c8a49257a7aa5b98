/** Errors and results of the host-tool executor, and the conversion between them. */
module ToolTypes {
  import opened Options

  /** A request is deduplicated by its invocation and its call id. */
  datatype Key = Key(invocation: string, call: string)

  /** How the owner's pipeline ends. */
  datatype Pipeline = Completed(result: ToolResult) | Failed(error: ToolError) | Interrupted

  /** The "attempts" entry of an error's details: missing, an integer, or a value `int()` rejects. */
  datatype Attempts = Absent | Count(n: int) | Garbled

  datatype ToolError = ToolError(code: string, denied: bool, timedOut: bool, attempts: Attempts)

  datatype ToolResult =
    ToolResult(success: bool, output: string, errorCode: Option<string>, attempts: nat, denied: bool, timedOut: bool)

  /** An error is convertible when its reported attempts are absent or a non-negative integer. */
  predicate Convertible(e: ToolError) {
    e.attempts.Absent? || (e.attempts.Count? && e.attempts.n >= 0)
  }

  /**
   * `_error_result`: `int()` raises on a garbled count and the result object rejects a negative one.
   * Both exceptions leave the handler that called this conversion, which is the `None` answer here.
   */
  function ErrorResult(e: ToolError): (r: Option<ToolResult>)
    ensures r.Some? <==> Convertible(e)
    ensures r.Some? ==> !r.value.success && r.value.denied == e.denied && r.value.timedOut == e.timedOut
    ensures r.Some? ==> r.value.errorCode == Some(e.code) && r.value.output == e.code
    ensures r.Some? ==> r.value.attempts == if e.attempts.Absent? then 1 else e.attempts.n
  {
    match e.attempts
    case Garbled => None
    case Absent => Some(ToolResult(false, e.code, Some(e.code), 1, e.denied, e.timedOut))
    case Count(n) =>
      if n < 0 then None
      else Some(ToolResult(false, e.code, Some(e.code), n, e.denied, e.timedOut))
  }
}
