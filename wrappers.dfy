/** Option and Result, used for JavaScript's nullable values and for the
    TypeErrors that unguarded property reads throw. */
module Wrappers {

  /** A value that may be `null` or `undefined` on the JavaScript side. */
  datatype Option<+T> = None | Some(value: T)

  /** The outcome of an evaluation that may throw. */
  datatype Result<+R, +E> = Success(value: R) | Failure(error: E)
}
