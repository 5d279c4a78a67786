/** Optional values and the abstract result of an asynchronous API call. */
module Wrappers {

  /** A value that may be absent: TypeScript's `T | undefined` or `T | null`. */
  datatype Option<+T> = None | Some(value: T) {
    function GetOr(default: T): T {
      match this
      case Some(v) => v
      case None => default
    }
  }

  /** What awaiting an HTTP observable yields: the response body, or a rejection.
      A rejection carries `Some(message)` when the thrown value is an `Error`
      instance and `None` for any other thrown value. */
  datatype Outcome<+T> = Ok(response: T) | Fail(message: Option<string>)
}
