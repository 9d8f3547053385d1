/** Option and Result, used for +∞ (no best loss yet) and for the errors the training script raises. */
module Wrappers {
  datatype Option<+T> = None | Some(value: T)

  datatype Result<+R, +E> = Success(value: R) | Failure(error: E)
}
