/** Optional values and results with an error message. */
module Wrappers {

  /** A value that may be absent (`undefined` / `null` in the original program). */
  datatype Option<+T> = None | Some(value: T)

  /** The outcome of an operation that can throw: a value, or the message of the error. */
  datatype Result<+R, +E> = Ok(value: R) | Err(error: E)
}
