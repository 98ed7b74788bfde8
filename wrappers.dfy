/** Option and Result: the absent values and the raised errors of the pipeline. */
module Wrappers {

  /** A value that may be missing: pandas' NaN in a float column. */
  datatype Option<+T> = None | Some(value: T)

  /** The outcome of an operation that may raise an exception. */
  datatype Result<+R, +E> = Ok(value: R) | Err(error: E)
}
