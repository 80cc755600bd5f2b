/** Failure-compatible wrappers shared by the model: Go's nil-able pointers
    become `Option`, and Go's `(value, err)` pairs become `Result`. */
module Wrappers {

  datatype Option<+T> = None | Some(value: T)

  datatype Result<+R, +E> = Ok(value: R) | Err(error: E)
}
