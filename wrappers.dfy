/** Optional values and results with an error, as used throughout the model. */
module Wrappers {

  /** `None` stands for a value that is absent (`undefined` in the JavaScript source). */
  datatype Option<+T> = None | Some(value: T)

  /** The outcome of an operation that can fail. */
  datatype Result<+T, +E> = Ok(value: T) | Err(error: E)
}
