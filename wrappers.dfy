/** Failure-carrying datatypes shared by the modules of this project. */
module Wrappers {

  /** A value that may be absent: a single-slot holder whose `value` is `undefined`. */
  datatype Option<+T> = None | Some(value: T)

  /** The result of a check that either passes or fails with an error. */
  datatype Outcome<+E> = Pass | Fail(error: E)

  /** The result of a call that either returns a value or throws one. */
  datatype Result<+R, +E> = Success(value: R) | Failure(error: E)
}
