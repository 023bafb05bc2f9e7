/** Optional values and success-or-error result types shared by the modules of the projection engine. */
module Wrappers {

  datatype Option<+T> = None | Some(value: T)

  /** A computation that either yields a value or fails with an error value. */
  datatype Result<+R, +E> = Success(value: R) | Failure(error: E)

  /** A state change that either completes or fails with an error value. */
  datatype Outcome<+E> = Pass | Fail(error: E)
}
