/** Optional values and success/failure results, as used throughout the model. */
module Wrappers {

  /** A value that may be absent (JavaScript `undefined`). */
  datatype Option<+T> = None | Some(value: T)

  /** The outcome of an operation that either answers or rejects. */
  datatype Result<+R, +E> = Ok(value: R) | Err(error: E)
}
