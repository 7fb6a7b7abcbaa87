/** Option and Result, the failure-carrying datatypes the rest of the model uses. */
module Wrappers {

  /** An optional value, as `Option` in the source. */
  datatype Option<+T> = None | Some(value: T)

  /** Success or failure, as `Result` in the source. */
  datatype Result<+T, +E> = Ok(value: T) | Err(error: E)
}
