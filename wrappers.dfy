/** Optional values and results with an error, shared by the other modules. */
module Wrappers {

  /** A value that may be absent: an optional field or a `null` return. */
  datatype Option<+T> = None | Some(value: T)

  /** The outcome of an operation that can fail instead of returning. */
  datatype Result<+T, +E> = Ok(value: T) | Err(error: E)
}
