/** Failure-carrying values used for the C++ exceptions of the modelled code. */
module Wrappers {

  datatype Option<+T> = None | Some(value: T)

  /** `Err` stands for a thrown `std::runtime_error` (or a refused operation). */
  datatype Result<+T, +E> = Ok(value: T) | Err(error: E)
}
