/** Option and Result, the failure-carrying values used throughout the model. */
module Wrappers {

  /** A value that may be missing: the model's `undefined`, `null` or absent key. */
  datatype Option<+T> = None | Some(value: T) {
    function GetOr(default: T): T {
      match this
      case Some(v) => v
      case None => default
    }
  }

  /** The outcome of an operation that may throw: `Err` carries the thrown message. */
  datatype Result<+T, +E> = Ok(value: T) | Err(error: E)
}
