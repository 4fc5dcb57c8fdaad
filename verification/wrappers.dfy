/** Option and Result values used for the decoders' error paths. */
module Wrappers {

  datatype Option<+T> = None | Some(value: T)

  /** The outcome of an operation that either produces a value or fails
      with an error value (the source raises an exception instead). */
  datatype Result<+T, +E> = Ok(value: T) | Err(error: E)
}
