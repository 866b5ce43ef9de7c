/** Failure-compatible result types used throughout the model. */
module Wrappers {

  datatype Option<+T> = None | Some(value: T)

  /** The value of a call that can throw. */
  datatype Result<+T, +E> = Success(value: T) | Failure(error: E)

  /** The value of a check that returns nothing or throws. */
  datatype Outcome<+E> = Pass | Fail(error: E)
}
