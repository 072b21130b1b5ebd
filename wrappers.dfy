/** Option and Result, the two wrappers the rest of the model returns. */
module Wrappers {

  /** A value that may be missing: Python's `None` or an actual value. */
  datatype Option<+T> = None | Some(value: T)

  /** The outcome of an operation that may raise instead of returning. */
  datatype Result<+R, +E> = Ok(value: R) | Err(error: E)
}
