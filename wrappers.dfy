/** Failure-carrying results, standing in for the exceptions the calculator throws. */
module Wrappers {

  datatype Option<+T> = None | Some(value: T)

  datatype Result<+T, +E> = Ok(value: T) | Err(error: E)

  /** Normal completion of a void operation, or the exception it raised. */
  datatype Outcome<+E> = Pass | Fail(error: E)
}
