/** Option and Result, used for Go's nil-able values and (value, error) returns. */
module Wrappers {

  datatype Option<+T> = None | Some(value: T)

  /** A Go `(value, error)` pair: every error return in the adapter carries the
      zero value, so `Err` carries only the error. */
  datatype Result<+T, +E> = Ok(value: T) | Err(error: E)
}
