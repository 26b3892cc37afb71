/** Failure-carrying values used throughout the model: Python's `None` return and the
    exceptions that a caller catches become `Option` and `Result` values. */
module Wrappers {

  datatype Option<+T> = None | Some(value: T)

  datatype Result<+T, +E> = Ok(value: T) | Err(error: E)
}
