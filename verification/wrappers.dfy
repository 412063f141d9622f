/** Option and Result used throughout the model. */
module Wrappers {

  /** A value that may be absent; stands for JavaScript's `null`. */
  datatype Option<+T> = None | Some(value: T)

  /** Either a value or an error; stands for the `[value, err]` pairs the
      beacon decoder returns. */
  datatype Result<+R, +E> = Success(value: R) | Failure(error: E)
}
