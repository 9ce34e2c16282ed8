/** Optional values: the model's stand-in for C# `null`, JavaScript `undefined`
    and the driver's "first or default". */
module Wrappers {

  datatype Option<+T> = None | Some(value: T)

  /** The outcome of an operation that can fail with an error of type `E`. */
  datatype Result<+T, +E> = Success(value: T) | Failure(error: E)
}
