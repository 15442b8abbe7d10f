/** Failure-carrying results used for the error returns of the Go code. */
module Wrappers {

  /** A value that may be absent (a nil pointer field in the Go structs). */
  datatype Option<+T> = None | Some(value: T)

  /** A value or an error: the Go `(T, error)` return pair. */
  datatype Result<+T, +E> = Success(value: T) | Failure(error: E)

  /** No value, or an error: a Go function that returns only `error`. */
  datatype Outcome<+E> = Pass | Fail(error: E)
}
