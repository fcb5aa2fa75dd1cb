/** Failure-compatible wrappers: Python's `None` and raised exceptions become values. */
module Wrappers {

  /** A value that may be Python's `None`. */
  datatype Option<+T> = None | Some(value: T)

  /** The outcome of a step that may raise: the value, or the exception's message (`str(e)`). */
  datatype Result<+T, +E> = Success(value: T) | Failure(error: E)
}
