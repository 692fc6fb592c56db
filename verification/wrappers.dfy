/** Failure-compatible wrappers shared by the model's modules. */
module Wrappers {

  datatype Option<+T> = None | Some(value: T)

  /** The outcome of an operation that may panic in the source: a value, or the panic it raised. */
  datatype Result<+T, +E> = Ok(value: T) | Err(error: E)
}
