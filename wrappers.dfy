/** Optional values and results with an error, used throughout the model. */
module Wrappers {

  /** A value that may be absent (JavaScript `undefined`). */
  datatype Option<+T> = None | Some(value: T) {
    function GetOr(default: T): T {
      match this
      case Some(v) => v
      case None => default
    }
  }

  /** The outcome of a check: a value, or the errors that were found. */
  datatype Result<+R, +E> = Ok(value: R) | Err(error: E)
}
