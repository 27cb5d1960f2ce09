/** Option and Result, the two failure-carrying datatypes the model uses. */
module Wrappers {

  datatype Option<+T> = None | Some(value: T)

  /** `Ok(value)` is the normal path of a handler; `Err(error)` is an early return. */
  datatype Result<+T, +E> = Ok(value: T) | Err(error: E)
}
