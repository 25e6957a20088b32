/** Option, Result and Outcome datatypes used across the model. */
module Wrappers {

  /** A value that may be absent: JavaScript's `undefined`. */
  datatype Option<+T> = None | Some(value: T)

  /** The result of a computation that may throw. */
  datatype Result<+T, +E> = Success(value: T) | Failure(error: E)

  /** The outcome of a state-changing step that may throw. */
  datatype Outcome<+E> = Pass | Fail(error: E)
}
