/** Option, Result and Outcome: the shapes of a value that may be absent and of a call that may fail. */
module Wrappers {

  /** A value that may be absent (a Java reference that may be null, or an `Optional`). */
  datatype Option<+T> = None | Some(value: T)

  /** A call that either returns a value or fails with an error. */
  datatype Result<+R, +E> = Success(value: R) | Failure(error: E)

  /** A call that returns nothing on success (a Java `void` method) or fails with an error. */
  datatype Outcome<+E> = Pass | Fail(error: E)
}
