/** Values that may be absent, and calls that may raise. */
module Wrappers {
  datatype Option<T> = None | Some(value: T)
  datatype Result<T> = Success(value: T) | Failure(error: string)
}
