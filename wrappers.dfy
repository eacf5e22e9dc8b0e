/** Failure-carrying values: the model's stand-in for Rust's `Option`, `Result`
    and for a panic that aborts the macro. */
module Wrappers {

  datatype Option<+T> = None | Some(value: T)

  datatype Result<+T, +E> = Ok(value: T) | Err(error: E)

  /** A check that either passes or fails with an error (a `()`-returning
      function that may panic). */
  datatype Outcome<+E> = Pass | Fail(error: E)
}
