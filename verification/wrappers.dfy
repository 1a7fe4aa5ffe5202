/** Failure-carrying values shared by the rest of the model. */
module Wrappers {

  /** A value that may be absent (a block the node does not know, a string that is not a number). */
  datatype Option<+T> = None | Some(value: T)

  /** The outcome of a step that can throw: the value, or the error that aborts the run. */
  datatype Result<+T, +E> = Ok(value: T) | Err(error: E)
}
