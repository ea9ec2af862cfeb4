/** Optional values and results shared by every module of the model. */
module Wrappers {

  /** A value that may be absent (JavaScript's `undefined` / `null`). */
  datatype Option<+T> = None | Some(value: T) {
    function GetOr(default: T): T {
      match this
      case Some(v) => v
      case None => default
    }
  }

  /** A computation that either yields a value or fails with an error. */
  datatype Result<+R, +E> = Success(value: R) | Failure(error: E)
}
