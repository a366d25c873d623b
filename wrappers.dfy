/** Option and Result, the two failure-carrying datatypes the model is written with. */
module Wrappers {

  /** A value that may be missing: a ledger key with no value, an error that did not happen. */
  datatype Option<+T> = None | Some(value: T)

  /** The (value, error) pair a Go function returns, with exactly one of the two meaningful. */
  datatype Result<+T, +E> = Ok(value: T) | Err(error: E)
}
