/** Option and Result values for the error returns of the Go code (a `nil`
    result, or an `error` beside a result). */
module Wrappers {

  datatype Option<+T> = None | Some(value: T)

  datatype Result<+R, +E> = Success(value: R) | Failure(error: E)
}
