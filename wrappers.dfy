/** Option and Result, the two sum types the Rust code uses for absent values and errors. */
module Wrappers {

  datatype Option<+T> = None | Some(value: T)

  datatype Result<+R, +E> = Ok(value: R) | Err(error: E)

  /** Rust's `()`: the payload of a `Result<(), E>` that carries no value. */
  datatype Unit = Unit
}
