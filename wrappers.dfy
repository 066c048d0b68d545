/** Optional values and results: the model's stand-ins for Go's nil-able fields
    and for the `(value, error)` return convention. */
module Wrappers {

  /** `None` plays the part of a nil field, `Some(v)` of a field referring to `v`. */
  datatype Option<+T> = None | Some(value: T)

  /** A Go `(T, error)` pair where exactly one side is meaningful. */
  datatype Result<+T, +E> = Ok(value: T) | Err(error: E)
}
