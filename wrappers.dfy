/** Option, Result and Outcome datatypes for the broker's replies. */
module Wrappers {

  datatype Option<+T> = None | Some(value: T)

  /** A reply that either carries a value or the error the HTTP layer reports. */
  datatype Result<+R, +E> = Success(value: R) | Failure(error: E)

  /** A check that either passes or fails with an error, carrying no value. */
  datatype Outcome<+E> = Pass | Fail(error: E)
}
