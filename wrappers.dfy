/** Helper datatypes used by the rest of the model: Option, Result and Outcome. */
module Wrappers {

  /** A value that may be absent (the role Python's `None` plays). */
  datatype Option<+T> = None | Some(value: T)

  /** The outcome of an operation that either returns a value or raises. */
  datatype Result<+R, +E> = Success(value: R) | Failure(error: E)

  /** The outcome of an operation that returns nothing or raises. */
  datatype Outcome<+E> = Pass | Fail(error: E)
}
