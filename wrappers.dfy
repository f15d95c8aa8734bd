/** Option and Result: the values a Python `dict.get` or a failing call can produce. */
module Wrappers {

  datatype Option<+T> = None | Some(value: T)

  datatype Result<+R, +E> = Success(value: R) | Failure(error: E)
}
