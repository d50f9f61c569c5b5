/** Optional values and error-carrying results, shared by every module of the model. */
module Wrappers {

  /** An optional value: Go's nil pointer is `None`. */
  datatype Option<+T> = None | Some(value: T)

  /** The value of a Go `(T, error)` pair: exactly one of the two is meaningful. */
  datatype Result<+T, +E> = Ok(value: T) | Err(error: E)
}
