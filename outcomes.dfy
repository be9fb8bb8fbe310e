/** Option and Result: a Go pointer that may be nil, and a Go (value, error) pair. */
module Outcomes {

  /** A Go pointer field: nil (None) or set (Some). */
  datatype Option<+T> = None | Some(value: T)

  /** A Go (value, error) return: a value, or the error that was returned instead. */
  datatype Result<+T, +E> = Success(value: T) | Failure(error: E)
}
