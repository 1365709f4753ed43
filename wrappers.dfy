/** Optional values and failure-carrying results, standing in for Python's
    `None` and for exceptions raised by the translator. */
module Wrappers {

  datatype Option<+T> = None | Some(value: T)

  datatype Result<+R, +E> = Success(value: R) | Failure(error: E)
}
