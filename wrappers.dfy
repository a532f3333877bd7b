/** Option and Result, the shapes the handlers return: an absent row or
    aggregate, and a validated value or the validation error that rejects it. */
module Wrappers {

  datatype Option<+T> = None | Some(value: T)

  datatype Result<+R, +E> = Success(value: R) | Failure(error: E)
}
