/** Optional values and results with an error, used for Python's None and for raised exceptions. */
module Wrappers {

  /** `None` stands for Python's `None` (or, where a caller says so, for an exception that was raised). */
  datatype Option<+T> = None | Some(value: T) {
    function GetOr(default: T): T {
      match this
      case Some(v) => v
      case None => default
    }
  }

  /** The outcome of a call that either returns a value or raises `error`. */
  datatype Result<+T, +E> = Ok(value: T) | Err(error: E)
}
