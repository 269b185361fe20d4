/** Option and Outcome values used for nullable fields and for completions that may fail. */
module Wrappers {

  /** A value that may be absent (a Java `null`). */
  datatype Option<+T> = None | Some(value: T)

  /** A value, or the error that took its place. */
  datatype Result<+T, +E> = Success(value: T) | Failure(error: E)

  /** The completion of an asynchronous step that yields no value: it completes or signals an error. */
  datatype Outcome<+E> = Pass | Fail(error: E)
}
