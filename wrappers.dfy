/** Failure-carrying return values, standing in for the exceptions the client throws. */
module Wrappers {

  datatype Option<+T> = None | Some(value: T)

  /** The result of an operation that yields a value or fails with an error. */
  datatype Result<+T, +E> = Success(value: T) | Failure(error: E)

  /** The result of an operation that yields nothing or fails with an error. */
  datatype Outcome<+E> = Pass | Fail(error: E)
}
