/** Optional values and error-carrying results: how the model writes a Python
    `None` and an exception that unwinds a call. */
module Wrappers {

  datatype Option<+T> = None | Some(value: T)

  /** `Failure(e)` stands for an exception whose `str()` is `e`. */
  datatype Result<+T, +E> = Success(value: T) | Failure(error: E)
}
