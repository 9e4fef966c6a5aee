/** Outcome types shared by every module. */
module Wrappers {

  /** A pointer or map entry that may be missing. */
  datatype Option<+T> = None | Some(value: T)

  /** A Go `(value, error)` pair: exactly one of the two is meaningful. */
  datatype Result<+T, +E> = Ok(value: T) | Err(error: E)
}
