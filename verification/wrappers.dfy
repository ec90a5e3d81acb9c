/** Optional values and success/failure results, used wherever the source
    returns `null` or throws. */
module Wrappers {

  /** A value that may be absent: JavaScript's `null` (or `undefined`). */
  datatype Option<+T> = None | Some(value: T)

  /** The outcome of an operation that can throw: a value or an error. */
  datatype Result<+T, +E> = Ok(value: T) | Err(error: E)
}
