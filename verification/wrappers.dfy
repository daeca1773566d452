/** Failure-compatible wrappers shared by the modules of this project. */
module Wrappers {

  /** A value that may be missing: JavaScript's `null` / `undefined`. */
  datatype Option<+T> = None | Some(value: T)

  /** The result of an operation that produces a value or fails with an error. */
  datatype Result<+T, +E> = Success(value: T) | Failure(error: E)

  /** The result of an operation that produces no value but may fail. */
  datatype Outcome<+E> = Pass | Fail(error: E)
}
