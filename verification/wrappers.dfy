/** Optional values and success/failure results, used for Python's `None`
    and for the exceptions an operation may raise. */
module Wrappers {

  /** `None` stands for Python's `None` (or a missing mapping key). */
  datatype Option<+T> = None | Some(value: T) {

    /** The value, or `default` when there is none (Python's `x if x is not None else default`). */
    function GetOr(default: T): T {
      match this
      case Some(v) => v
      case None => default
    }
  }

  /** The outcome of an operation that either returns a value or raises an error. */
  datatype Result<+R, +E> = Success(value: R) | Failure(error: E)
}
