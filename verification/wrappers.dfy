/** Optional values and fallible results shared by the server and client models. */
module Wrappers {

  /** A value that may be absent (Python's `None`, JavaScript's `null`). */
  datatype Option<+T> = None | Some(value: T)

  /** The outcome of an operation that either produces a value or fails. */
  datatype Result<+T, +E> = Ok(value: T) | Err(error: E)
}
