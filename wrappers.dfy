/** Option and Result: the absent values and the early exits of the script. */
module Wrappers {

  /** A value that may be missing (a JSON key or a command-line flag left out). */
  datatype Option<+T> = None | Some(value: T)

  /** The outcome of a stage: a value, or the error that stopped the run. */
  datatype Result<+T, +E> = Ok(value: T) | Err(error: E)
}
