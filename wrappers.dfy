/** Failure-carrying datatypes shared by the model: the optional values and
    thrown errors of the Swift code. */
module Wrappers {

  /** A Swift optional: absent (`nil`) or present. */
  datatype Option<+T> = None | Some(value: T)

  /** A call that either returns a value or throws an error. */
  datatype Result<+R, +E> = Success(value: R) | Failure(error: E)

  /** A call that returns nothing, or throws an error. */
  datatype Outcome<+E> = Pass | Fail(error: E)
}
