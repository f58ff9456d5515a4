/** Option, Result and Outcome values for the source's nulls, exceptions and void-or-throw methods. */
module Wrappers {

  /** A Java reference that may be null. */
  datatype Option<+T> = None | Some(value: T)

  /** A value, or the exception that the source throws instead of returning it. */
  datatype Result<+R, +E> = Ok(value: R) | Err(error: E)

  /** A void method that either returns normally or throws. */
  datatype Outcome<+E> = Pass | Fail(error: E)
}
