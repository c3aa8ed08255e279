/** Failure-carrying results: the model's stand-in for Python's raised exceptions. */
module Wrappers {

  datatype Option<+T> = None | Some(value: T)

  /** `Err` plays the part of a raised `ValueError`; its payload says which one. */
  datatype Result<+T, +E> = Ok(value: T) | Err(error: E)
}
