/** Rust's `Option` and `Result`, as used by the widgets and the client channels. */
module Wrappers {

  datatype Option<+T> = None | Some(value: T)

  datatype Result<+T, +E> = Ok(value: T) | Err(error: E)
}
