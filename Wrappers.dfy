/** Failure-compatible wrappers shared by the pattern modules. */
module Wrappers {

  /** A value or nothing: Python's `None` return. */
  datatype Option<+T> = None | Some(value: T)

  /** A value or the exception the Python code would raise. */
  datatype Result<+T, +E> = Success(value: T) | Failure(error: E)
}
