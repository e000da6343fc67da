/** Option and Result, used for JavaScript's null and for the monitor's `invariant` failures. */
module Wrappers {

  datatype Option<+T> = None | Some(value: T)

  datatype Result<+R, +E> = Success(value: R) | Failure(error: E)
}
