/** Failure-carrying return types used in place of JavaScript exceptions and absent values. */
module Wrappers {

  /** A value that may be missing (JavaScript `undefined`). */
  datatype Option<+T> = None | Some(value: T)

  /** A computed value, or the error the operation throws or rejects with. */
  datatype Result<+R, +E> = Success(value: R) | Failure(error: E)

  /** Completion of an operation that yields no value (`Promise<void>`). */
  datatype Outcome<+E> = Pass | Fail(error: E)
}
