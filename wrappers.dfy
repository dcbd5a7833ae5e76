/** Option and Result, the two failure-carrying shapes the handlers use. */
module Wrappers {

  /** An optional value: `null`/`undefined` in the TypeScript source. */
  datatype Option<+T> = None | Some(value: T)

  /** A value or the error that was thrown instead of it. */
  datatype Result<+T, +E> = Success(value: T) | Failure(error: E)
}
