/** Optional values and success-or-error results shared by the modules of this model. */
module Outcome {

  /** A value that may be absent (JavaScript's `undefined` or `null`). */
  datatype Option<T> = None | Some(value: T)

  /** The result of an operation that either succeeds with a value or fails with an error. */
  datatype Result<T, E> = Ok(value: T) | Err(error: E)
}
