/** Failure-compatible result types shared by every module of the model. */
module Wrappers {

  /** A value or an error (Go's `(T, error)` return pair). */
  datatype Result<+R, +E> = Success(value: R) | Failure(error: E)

  /** Success or an error, with no value (Go's bare `error` return: nil is Pass). */
  datatype Outcome<+E> = Pass | Fail(error: E)
}
