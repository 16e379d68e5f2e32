/** Option and Result, used for Go's nil pointers and (value, error) returns. */
module Wrappers {

  /** A value that may be absent; `None` stands for a nil pointer. */
  datatype Option<+T> = None | Some(value: T) {

    /** The value, or `default` when absent (Go's "if p != nil { *p } else { default }"). */
    function GetOr(default: T): T {
      match this
      case Some(v) => v
      case None => default
    }
  }

  /** The outcome of a call that returns either a value or an error. */
  datatype Result<+R, +E> = Success(value: R) | Failure(error: E)
}
