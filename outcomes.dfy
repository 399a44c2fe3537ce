/** Shared value shapes: optional fields, the discriminated `Result` union the
    services return, and the abstract outcome of a call to an external service
    (AWS Glue, SQS, Upstash). An external call either threw, or returned a
    response whose optional fields may each be absent. */
module Outcomes {

  /** A field of a response or request that may be `undefined`. */
  datatype Option<+T> = None | Some(value: T)

  /** `{ success: true, data }` or `{ success: false, reason }`. */
  datatype Result<+D, +E> = Success(data: D) | Failure(reason: E)

  /** Whatever a rejected promise carried; its contents are never inspected. */
  datatype Fault = Fault(description: string)

  /** What an awaited SDK `send` did: it threw, or it resolved to a response. */
  datatype Call<+R> = Threw(error: Fault) | Returned(response: R)

  /** JavaScript truthiness of an optional string: absent and "" are falsy. */
  predicate TruthyString(s: Option<string>)
  {
    s.Some? && s.value != ""
  }

  /** JavaScript truthiness of an optional number: absent and 0 are falsy. */
  predicate TruthyNumber(n: Option<int>)
  {
    n.Some? && n.value != 0
  }

  /** `b || false` for an optional boolean. */
  function OrFalse(b: Option<bool>): (r: bool)
    ensures r <==> b == Some(true)
  {
    match b
    case None => false
    case Some(v) => if v then v else false
  }
}
