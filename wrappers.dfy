/** Option, Result and Outcome: the stand-ins for Java's null references,
    thrown exceptions and `void`-or-exception methods. */
module Wrappers {

  /** A possibly absent value; `None` models a Java `null`. */
  datatype Option<+T> = None | Some(value: T)

  /** A value or the exception that was thrown instead of returning it. */
  datatype Result<+R, +E> = Success(value: R) | Failure(error: E)

  /** A `void` method that either returns normally or throws. */
  datatype Outcome<+E> = Pass | Fail(error: E)
}
