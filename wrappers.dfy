/** Option and Result, standing for Rust's `Option` and for a `panic!` turned into a value. */
module Wrappers {
  datatype Option<+T> = None | Some(value: T)

  datatype Result<+T, +E> = Ok(value: T) | Err(error: E)
}
