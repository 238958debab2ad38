/** Settled promises: a backend or session call either resolves with a value
    or rejects with a reason. */
module Outcomes {
  import opened JsValues

  /** The reason a promise was rejected with; the resolvers never inspect
      or translate it. */
  datatype Error = Rejection(reason: JsValue)

  datatype Result<+T> = Ok(value: T) | Err(error: Error)
}
