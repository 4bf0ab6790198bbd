/** Failure-carrying result types used in place of the Python exceptions. */
module Wrappers {

  datatype Option<+T> = None | Some(value: T)

  datatype Result<+R, +E> = Success(value: R) | Failure(error: E)

  /** The outcome of a step that either completes or raises. */
  datatype Outcome<+E> = Pass | Fail(error: E)
}
