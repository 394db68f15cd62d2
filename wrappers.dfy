/** Optional values and results with an error, for absent attributes and for the
    exception of `onSizeChanged`. */
module Wrappers {

  datatype Option<T> = None | Some(value: T)

  datatype Result<T, E> = Success(value: T) | Failure(error: E)
}
