/** Failure-carrying values shared by every module of the model. */
module Wrappers {

  /** A value that may be absent. */
  datatype Option<+T> = None | Some(value: T)

  /** The outcome of an operation that either produces a value or fails with an error
      (the model of Go's `(value, error)` return pairs). */
  datatype Result<+T, +E> = Success(value: T) | Failure(error: E)
}
