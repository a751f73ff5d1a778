/** Failure-carrying results used by every fallible step of the faucet. */
module Wrappers {

  datatype Option<+T> = None | Some(value: T)

  /** The value of a promise that either resolves with a value or rejects with an error. */
  datatype Result<+R, +E> = Success(value: R) | Failure(error: E)

  /** The value of a promise that resolves with nothing useful or rejects with an error. */
  datatype Outcome<+E> = Pass | Fail(error: E)
}
