/** Option and Result, the two failure-carrying values the model uses. */
module Wrappers {

  /** A value that may be absent: Python's `None` versus a value. */
  datatype Option<+T> = None | Some(value: T) {

    /** The value, or `default` when absent. */
    function GetOr(default: T): T {
      match this
      case Some(v) => v
      case None => default
    }
  }

  /** A value, or the exception that a Python call would have raised instead. */
  datatype Result<+R, +E> = Ok(value: R) | Err(error: E)
}
