/** Option and Result, the failure-carrying values used throughout the model. */
module Wrappers {

  /** A framework value that may be null, or a Go pointer that may be nil. */
  datatype Option<+T> = None | Some(value: T)

  /** A Go `(value, error)` pair where exactly one side is meaningful. */
  datatype Result<+T, +E> = Success(value: T) | Failure(error: E)
}
