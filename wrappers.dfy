/** Option and Result: the optional values and raised errors shared by every module of the model. */
module Wrappers {

  /** An optional value: Python's `None` versus a present value. */
  datatype Option<+T> = None | Some(value: T)

  /** The outcome of an operation that can raise: a value or the error it raises. */
  datatype Result<+T, +E> = Ok(value: T) | Err(error: E)
}
