/** Option and Result, used where the source returns null or throws. */
module Wrappers {

  /** A value that may be absent (the source's `null`). */
  datatype Option<+T> = None | Some(value: T)

  /** A value or an error (the source's thrown `Error`). */
  datatype Result<+T, +E> = Success(value: T) | Failure(error: E)
}
