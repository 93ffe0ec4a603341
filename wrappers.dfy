/** Optional values and results with an error, as returned by the store and the managers. */
module Wrappers {

  /** A Go pointer that may be nil, or any value that may be absent. */
  datatype Option<T> = None | Some(value: T)

  /** A Go `(value, error)` pair where exactly one side is meaningful. */
  datatype Result<T, E> = Ok(value: T) | Err(error: E)
}
