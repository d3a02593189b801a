/** Failure-carrying values used for the error paths of the model. Go's `error`
    values are represented by their text (`err.Error()`). */
module Wrappers {

  datatype Option<+T> = None | Some(value: T)

  datatype Result<+T, +E> = Ok(value: T) | Err(error: E)
}
