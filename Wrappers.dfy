/** Option and Result: the model's stand-ins for `null`/`undefined` and for
    a promise that either resolves with a value or rejects with an error. */
module Wrappers {

  datatype Option<+T> = None | Some(value: T)

  datatype Result<+T, +E> = Success(value: T) | Failure(error: E)
}
