/** Optional values and results, standing for Python's `None` and raised exceptions. */
module Wrappers {

  /** `None` or a present value. */
  datatype Option<+T> = None | Some(value: T) {
    function GetOr(default: T): T {
      match this
      case Some(v) => v
      case None => default
    }
  }

  /** The outcome of an operation that may raise: a value, or the message of the exception. */
  datatype Result<+R> = Success(value: R) | Failure(error: string)
}
