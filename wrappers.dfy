/** Failure-carrying results, used where the Java code throws an exception. */
module Wrappers {

  /** A value that may be absent. */
  datatype Option<+T> = None | Some(value: T)

  /** The outcome of an operation that returns a value or throws. */
  datatype Result<+T, +E> = Success(value: T) | Failure(error: E)

  /** The outcome of a `void` operation that completes or throws. */
  datatype Outcome<+E> = Pass | Fail(error: E)
}
