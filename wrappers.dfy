/** Optional values and results with an error, as the builders' async steps either resolve or reject. */
module Wrappers {

  datatype Option<+T> = None | Some(value: T)

  datatype Result<+T, +E> = Success(value: T) | Failure(error: E)
}
