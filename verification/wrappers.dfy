/** Option and Result, shared by the rest of the model. */
module Wrappers {

  /** An optional value; plays the role of Python's `None` for optional arguments. */
  datatype Option<+T> = None | Some(value: T)

  /** Either a value or the fault that ended the computation. */
  datatype Result<+T, +E> = Success(value: T) | Failure(error: E)
}
