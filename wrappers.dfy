/** Option and Result, the two failure-carrying wrappers the rest of the model uses. */
module Wrappers {

  /** Python's "a value or None". */
  datatype Option<+T> = None | Some(value: T) {

    function GetOr(default: T): T {
      match this
      case Some(v) => v
      case None => default
    }
  }

  /** A call that either returns a value or raises an exception `error`. */
  datatype Result<+T, +E> = Ok(value: T) | Err(error: E)
}
