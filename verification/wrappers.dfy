/** Failure-carrying values used in place of the source's exceptions and `npos` results. */
module Wrappers {

  /** A value that may be absent, as `std::string::npos` is for a failed search. */
  datatype Option<+T> = None | Some(value: T)

  /** Either a computed value or the error that the source would have thrown. */
  datatype Result<+R, +E> = Success(value: R) | Failure(error: E)
}
