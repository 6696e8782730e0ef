/** Failure-carrying return types shared by every tool model. */
module Wrappers {

  /** A value that may be missing, standing in for Python's `None`-or-value returns. */
  datatype Option<+T> = None | Some(value: T)

  /** Either a successful value or an error describing why the call failed. */
  datatype Result<+R, +E> = Success(value: R) | Failure(error: E)
}
