/** Failure-carrying results for the generator's error paths (the exceptions
    and failed assertions of the script become values). */
module Wrappers {

  datatype Option<+T> = None | Some(value: T)

  datatype Result<+R, +E> = Success(value: R) | Failure(error: E)

  /** A result without a value: the check passed, or it failed with an error. */
  datatype Outcome<+E> = Pass | Fail(error: E)
}
