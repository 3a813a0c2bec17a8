/** Failure-compatible wrapper types shared by the other modules. */
module Wrappers {

  /** An optional value: a JavaScript `null`/`undefined` becomes None. */
  datatype Option<+T> = None | Some(value: T)

  /** The value of a promise that either resolves or rejects with an error. */
  datatype Result<+R, +E> = Success(value: R) | Failure(error: E)
}
