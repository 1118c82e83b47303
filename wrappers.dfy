/** Optional values and results shared by the checkout modules. */
module Wrappers {

  /** A value that may be missing (JavaScript's `undefined`/`null`). */
  datatype Option<+T> = None | Some(value: T) {
    function GetOr(default: T): T {
      match this
      case Some(v) => v
      case None => default
    }
  }

  /** The outcome of a JavaScript function that either returns or throws. */
  datatype Result<+R, +E> = Ok(value: R) | Err(error: E)
}
