/** Option and Result: absent values and caught errors. */
module Wrappers {

  /** A value that may be absent (JavaScript's `undefined` or a falsy return). */
  datatype Option<+T> = None | Some(value: T)

  /** The outcome of a step that may throw: its value, or what was thrown. */
  datatype Result<+R, +E> = Success(value: R) | Failure(error: E)
}
