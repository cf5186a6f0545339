/** Option and Result, used for the dictionary lookups and the exceptions of the source. */
module Wrappers {

  /** A value that may be absent: a dictionary key that may be missing, a decoding that may fail. */
  datatype Option<+T> = None | Some(value: T)

  /** The outcome of a step that either produces a value or raises an error. */
  datatype Result<+T, +E> = Ok(value: T) | Err(error: E)
}
