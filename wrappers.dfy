/** Option and Result, the two tagged values the model uses in place of Go's
    nil pointers and `(value, error)` pairs. */
module Wrappers {

  /** An error value as returned by a Go call; only its message is kept. */
  datatype Error = Error(msg: string)

  datatype Option<+T> = None | Some(value: T)

  datatype Result<+T> = Ok(value: T) | Err(error: Error)
}
