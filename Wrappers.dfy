/**
 * The optional value used wherever the C# source returns or stores a nullable
 * reference, and the outcome of an operation that may throw instead of returning.
 */
module Wrappers {

  datatype Option<+T> = None | Some(value: T) {

    /** The value, or `default` when there is none: the C# `x ?? default`. */
    function GetOr(default: T): T {
      match this
      case Some(v) => v
      case None => default
    }
  }

  /** A value, or the error an operation raised instead. */
  datatype Result<+T, +E> = Ok(value: T) | Err(error: E)
}
