/** Optional values and fallible results, standing for JavaScript's `undefined`
    and for exceptions thrown by the code being modelled. */
module Wrappers {

  datatype Option<+T> = None | Some(value: T)

  datatype Result<+R, +E> = Success(value: R) | Failure(error: E)
}
