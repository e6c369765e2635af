/** Optional values and success/failure results, standing in for JavaScript's
    null/undefined and for Java's exceptions. */
module Wrappers {

  datatype Option<+T> = None | Some(value: T)

  datatype Result<+R, +E> = Success(value: R) | Failure(error: E)
}
