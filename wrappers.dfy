/** Option and Result values for the operations that may fail or find nothing. */
module Wrappers {

  datatype Option<+T> = None | Some(value: T)

  /** The outcome of an operation that throws std::runtime_error on failure. */
  datatype Result<+T> = Ok(value: T) | Err(message: string)

  /** The outcome of an operation with no value that throws std::runtime_error on failure. */
  datatype Outcome = Pass | Fail(message: string)
}
