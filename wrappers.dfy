/** Optional values and results with an error, used across the model. */
module Wrappers {

  /** A value that may be absent (JavaScript's `null`/`undefined` results). */
  datatype Option<+T> = None | Some(value: T)

  /** The outcome of an operation that may throw. */
  datatype Result<+R, +E> = Ok(value: R) | Err(error: E)
}
