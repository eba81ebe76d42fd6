/** The optional and fallible values the launcher's Rust code works with. */
module Wrappers {

  /** Rust's `Option`. */
  datatype Option<+T> = None | Some(value: T)

  /** A computation that either yields a value or stops the program with a panic. */
  datatype Result<+T, +E> = Ok(value: T) | Err(error: E)
}
