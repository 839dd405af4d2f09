/** Failure-carrying wrappers shared by the request builder and the normalizer. */
module Wrappers {

  datatype Option<+T> = None | Some(value: T)

  /** Either a value or the error that stopped the computation. */
  datatype Result<+R, +E> = Success(value: R) | Failure(error: E)

  /** A step that either completes or fails with an error and produces nothing. */
  datatype Outcome<+E> = Pass | Fail(error: E)
}
