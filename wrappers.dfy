/** Failure-carrying datatypes used for the driver's exceptions and Java's null. */
module Wrappers {

  /** Some(v), or None where the Java code has null. */
  datatype Option<+T> = None | Some(value: T)

  /** A value, or the exception the Java code throws instead of returning one. */
  datatype Result<+T, +E> = Ok(value: T) | Err(error: E)

  /** Normal completion of a void method, or the exception it throws. */
  datatype Outcome<+E> = Pass | Fail(error: E)
}
