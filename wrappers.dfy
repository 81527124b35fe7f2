/** Failure-compatible wrappers used throughout the model: Python's `None`-or-value
    and a value-or-raised-exception outcome. */
module Wrappers {

  /** A value that may be absent (Python `Optional[T]`). */
  datatype Option<+T> = None | Some(value: T)

  /** The outcome of a call: the value it returned, or the exception it raised. */
  datatype Result<+T, +E> = Success(value: T) | Failure(error: E)
}
