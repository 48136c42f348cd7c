/** Option and Result, used for JavaScript's `null`/absent values and for thrown errors. */
module Wrappers {

  datatype Option<+T> = None | Some(value: T)

  /** The outcome of an awaited call: its value, or the error it threw. */
  datatype Result<+T, +E> = Ok(value: T) | Err(error: E)
}
