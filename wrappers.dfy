/** Failure-carrying results used to model Java's null references and exceptions. */
module Wrappers {

  /** `None` stands for a Java `null` reference. */
  datatype Option<+T> = None | Some(value: T)

  /** The outcome of a call that either returns a value or throws. */
  datatype Result<+T, +E> = Success(value: T) | Failure(error: E)

  /** The outcome of a call that returns nothing or throws. */
  datatype Outcome<+E> = Pass | Fail(error: E)
}
