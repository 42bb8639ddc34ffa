/** Optional values and outcomes that may carry an error, used for JSON fields
    that can be absent and for expressions that can throw. */
module Wrappers {

  datatype Option<+T> = None | Some(value: T)

  datatype Result<+T, +E> = Success(value: T) | Failure(error: E)
}
