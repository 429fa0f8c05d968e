/** Option and Result, the failure-compatible wrappers the model uses for
    "undefined" lookups and for handler outcomes. */
module Wrappers {

  /** A value that may be absent; None plays the role of `undefined`. */
  datatype Option<+T> = None | Some(value: T)

  /** The outcome of an operation that either produces a value or fails. */
  datatype Result<+R, +E> = Ok(value: R) | Err(error: E)
}
