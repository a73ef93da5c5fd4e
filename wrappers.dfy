/** Failure-carrying wrappers used throughout the model. */
module Wrappers {

  /** A value that may be absent: Kotlin's nullable types (`String?`). */
  datatype Option<+T> = None | Some(value: T)

  /** A computation that either produced a value or raised an exception. */
  datatype Result<+T, +E> = Success(value: T) | Failure(error: E)

  /** A computation that either completed or raised an exception, with no value. */
  datatype Outcome<+E> = Pass | Fail(error: E)
}
