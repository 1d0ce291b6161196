/** Failure-carrying wrappers used in place of Rust's `Option` and `anyhow::Result`. */
module Wrappers {

  /** `Option<T>`: a value that may be absent. */
  datatype Option<+T> = None | Some(value: T)

  /** `Result<T, E>`: either a value or the error that stopped the computation. */
  datatype Result<+R, +E> = Success(value: R) | Failure(error: E)

  /** `Result<(), E>`: a check that passes or fails with an error. */
  datatype Outcome<+E> = Pass | Fail(error: E)
}
