/** Optional values and results with an error, for the missing indicator
    values and the failure paths of the analysis. */
module Wrappers {

  /** A value that may be absent: a NaN or a missing column reads as None. */
  datatype Option<+T> = None | Some(value: T)

  /** The outcome of an operation that can raise. */
  datatype Result<+R, +E> = Ok(value: R) | Err(error: E)
}
