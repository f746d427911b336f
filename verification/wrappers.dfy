/** Option and Result, the two failure-carrying wrappers the model uses
    for JavaScript's `undefined` and for errors that the source throws. */
module Wrappers {

  datatype Option<+T> = None | Some(value: T)

  /** The outcome of an operation that either yields a value or throws an
      error carrying a message. */
  datatype Result<+T, +E> = Ok(value: T) | Err(error: E)
}
