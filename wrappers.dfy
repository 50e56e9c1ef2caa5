/** Failure-carrying results, standing for the exceptions the Python code raises. */
module Wrappers {

  datatype Option<+T> = None | Some(value: T)

  /** A value, or the exception that was raised instead of returning it. */
  datatype Result<+T, +E> = Success(value: T) | Failure(error: E)

  /** A call that returns nothing on success, or the exception it raised. */
  datatype Outcome<+E> = Pass | Fail(error: E)
}
