/** Optional values and outcomes: `undefined` fields, absent query data, and requests that may fail. */
module Wrappers {
  datatype Option<+T> = None | Some(value: T) {
    function GetOr(default: T): T {
      match this
      case Some(v) => v
      case None => default
    }
  }

  /** A request's answer: the value it resolves with, or the error it rejects with. */
  datatype Result<+T, +E> = Success(value: T) | Failure(error: E)
}
