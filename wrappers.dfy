/** Option and Result: the Go (value, error) pairs and nil-or-value returns of the model. */
module Wrappers {

  datatype Option<+T> = None | Some(value: T)

  /** A Go `(value, error)` return: either a value or the error's message. */
  datatype Result<+T> = Ok(value: T) | Err(message: string)
}
