/** Failure-carrying results. The scripts signal errors by raising Python
    exceptions (`KeyError`, `ValueError`); the model returns them instead. */
module Wrappers {

  /** Either the value an operation produces, or the error it raises. */
  datatype Result<+T, +E> = Ok(value: T) | Err(error: E)
}
