/** Failure-carrying values used for the exceptions the source raises. */
module Wrappers {

  datatype Option<+T> = None | Some(value: T)

  datatype Result<+R, +E> = Ok(value: R) | Err(error: E)

  /** A check that either passes or fails with an error, for members that
      raise or return nothing. */
  datatype Outcome<+E> = Pass | Fail(error: E)
}
