/** Option and Result: the absent value (`undefined`/`null`) and the thrown error of the source. */
module Wrappers {

  /** A value that may be absent, as an optional field of a template record or a `null` widget slot. */
  datatype Option<+T> = None | Some(value: T)

  /** The outcome of a computation that may throw: its value, or the error it threw. */
  datatype Result<+T, +E> = Ok(value: T) | Err(error: E)
}
