/** Optional values and results with an error, used where the modelled code
    returns null or throws a checked exception. */
module Wrappers {

  datatype Option<+T> = None | Some(value: T)

  datatype Result<+T, +E> = Success(value: T) | Failure(error: E)
}
