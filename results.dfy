/** Values shared by the adapters and the intent handlers: optional values,
    the outcome of an operation that may throw, and the trace of outbound
    requests an operation made. */
module Results {

  /** An optional value; `None` stands for JavaScript's `undefined`/`null`. */
  datatype Option<T> = None | Some(value: T) {
    function GetOr(default: T): T {
      if Some? then value else default
    }
  }

  /** A JavaScript `Error`, reduced to its message. */
  datatype Error = Error(message: string)

  /** The outcome of an `async` function: the value it resolves to, or the
      error it throws. */
  datatype Result<T> = Success(value: T) | Failure(error: Error)

  /** What an operation produced, together with the outbound requests it
      made, in the order it made them. */
  datatype Run<T, C> = Run(result: T, calls: seq<C>)

  /** `res.ok` of an HTTP response: a status in the 2xx range. */
  predicate Ok(status: nat) {
    200 <= status <= 299
  }
}
