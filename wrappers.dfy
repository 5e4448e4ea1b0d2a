/** Option and Result, used for absent numbers, an absent prediction and the
    single validation error of the form. */
module Wrappers {

  datatype Option<+T> = None | Some(value: T)

  datatype Result<+R, +E> = Success(value: R) | Failure(error: E)
}
