/** Option and Result, used for PHP's nullable values and for thrown exceptions. */
module Wrappers {

  datatype Option<+T> = None | Some(value: T) {

    /** PHP's null-coalescing `$x ?? $default`. */
    function GetOr(default: T): T {
      match this
      case Some(v) => v
      case None => default
    }
  }

  /** The outcome of a call that either returns a value or throws. */
  datatype Result<+T, +E> = Ok(value: T) | Err(error: E)
}
