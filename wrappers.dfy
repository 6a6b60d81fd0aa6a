/** Failure-carrying results shared by both drafts of the equation model. */
module Wrappers {

  /** An optional value: the validation functions answer `None` when nothing is wrong. */
  datatype Option<+T> = None | Some(value: T)

  /** The outcome of an operation that the source lets throw an `ArgumentException`. */
  datatype Result<+T, +E> = Ok(value: T) | Err(error: E)
}
