/** Failure-carrying return values, standing in for std::optional, std::expected
    and thrown exceptions in the modelled C++ code. */
module Wrappers {

  datatype Option<+T> = None | Some(value: T)

  datatype Result<+T, +E> = Success(value: T) | Failure(error: E)
}
