/** Optional values and results with an error, used where the source returns None or raises. */
module Wrappers {

  datatype Option<+T> = None | Some(value: T)

  datatype Result<+T, +E> = Ok(value: T) | Err(error: E)

  /** A check that either passes or fails with an error, for operations that return nothing. */
  datatype Outcome<+E> = Pass | Fail(error: E)
}
