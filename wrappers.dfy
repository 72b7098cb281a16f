/** Optional values and success/failure results, used for the JavaScript
    `undefined`/`null` cases and for remote calls that resolve or reject. */
module Wrappers {

  datatype Option<+T> = None | Some(value: T)

  datatype Result<+R, +E> = Success(value: R) | Failure(error: E)
}
