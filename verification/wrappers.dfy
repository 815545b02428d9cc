/** Option and result types used to model Python's exceptions as values. */
module Wrappers {

  datatype Option<+T> = None | Some(value: T)

  /** A computation that returns a value or raises an error. */
  datatype Result<+R, +E> = Success(value: R) | Failure(error: E)

  /** A computation that returns nothing (Python's `None`) or raises an error. */
  datatype Outcome<+E> = Pass | Fail(error: E)
}
