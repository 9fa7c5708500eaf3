/** Option and Result, the two failure-carrying shapes used throughout the model. */
module Outcomes {

  /** A value that may be missing (a Go nil, a JavaScript undefined or null). */
  datatype Option<+T> = None | Some(value: T)

  /** A value or the error that prevented it (a Go `(T, error)` pair). */
  datatype Result<+T, +E> = Ok(value: T) | Err(error: E)
}
