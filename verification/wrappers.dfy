/** Failure-carrying results used in place of Python exceptions. */
module Wrappers {

  datatype Option<+T> = None | Some(value: T)

  /** A value, or the exception the call raised. */
  datatype Result<+T, +E> = Success(value: T) | Failure(error: E)

  /** A call that returns nothing, or the exception it raised. */
  datatype Outcome<+E> = Pass | Fail(error: E)
}
