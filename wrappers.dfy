/** Option, Result and Outcome: the absent values, errors and raised exceptions of the page. */
module Wrappers {

  /** A JavaScript value that may be null or undefined. */
  datatype Option<+T> = None | Some(value: T)

  /** A value computed by a step that may raise instead. */
  datatype Result<+R, +E> = Success(value: R) | Failure(error: E)

  /** Whether a step completed or raised, for steps that return nothing. */
  datatype Outcome<+E> = Pass | Fail(error: E)
}
