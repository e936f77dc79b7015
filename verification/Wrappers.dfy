/** Failure-carrying values used by every other module. */
module Wrappers {
  datatype Option<+T> = None | Some(value: T)

  /** The outcome of an operation that raises in the original. */
  datatype Result<+T, +E> = Ok(value: T) | Err(error: E)
}
