/** Option and Result: the model's stand-ins for Go's nil pointers and `(value, error)` returns. */
module Wrappers {

  /** A value that may be absent (a nil pointer or a missing map entry in the source). */
  datatype Option<+T> = None | Some(value: T)

  /** A `(value, error)` pair of which exactly one half is meaningful. */
  datatype Result<+T, +E> = Ok(value: T) | Err(error: E)
}
