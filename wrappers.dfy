/** Optional values and results with an error, shared by every module. */
module Wrappers {

  /** A value that may be absent (`None`, `null`, `undefined` in the source). */
  datatype Option<+T> = None | Some(value: T)

  /** The outcome of an operation that may fail with an error value. */
  datatype Result<+T, +E> = Ok(value: T) | Err(error: E)
}
