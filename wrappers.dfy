/** Small failure-carrying datatypes shared by the other modules. */
module Wrappers {

  /** A value that may be absent (an unset environment variable, a missing query parameter). */
  datatype Option<+T> = None | Some(value: T)

  /** The outcome of a step that either yields a value or stops with an error. */
  datatype Result<+T, +E> = Ok(value: T) | Err(error: E)
}
