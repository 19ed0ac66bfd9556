/** Option and Result values, used where the JavaScript source has `undefined`
    arguments or thrown errors. */
module Wrappers {

  datatype Option<+T> = None | Some(value: T)

  datatype Result<+T, +E> = Success(value: T) | Failure(error: E)
}
