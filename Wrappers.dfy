/** Option and Result values used for the nullable pointers and the
    `std::expected` results of the audio backend. */
module Wrappers {

  datatype Option<+T> = None | Some(value: T)

  datatype Result<+R, +E> = Success(value: R) | Failure(error: E)
}
