/** Failure-compatible wrappers used by the lifecycle model. */
module Wrappers {

  /** A value that may be absent (JavaScript `undefined`/`null`, or a regular expression without a match). */
  datatype Option<+T> = None | Some(value: T)

  /** The result of an operation that may throw. */
  datatype Result<+R, +E> = Success(value: R) | Failure(error: E)

  /** The outcome of a handler that returns nothing but may throw. */
  datatype Outcome<+E> = Pass | Fail(error: E)
}
