/** Failure-compatible wrappers shared by the modules of this project. */
module Wrappers {

  /** A value that may be absent (a `null` lookup, an `Option` in Rust). */
  datatype Option<+T> = None | Some(value: T)

  /** A computed value or the error that stopped the computation. */
  datatype Result<+R, +E> = Ok(value: R) | Err(error: E)

  /** Success without a value (Rust's `Result<()>`) or the error that stopped it. */
  datatype Outcome<+E> = Pass | Fail(error: E)
}
