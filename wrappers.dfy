/** Optional values and error results, used for missing cells and for the errors the pipeline raises. */
module Wrappers {

  /** A cell that may be missing (pandas' NaN / NaT). */
  datatype Option<+T> = None | Some(value: T)

  /** The outcome of an operation that can raise. */
  datatype Result<+R, +E> = Success(value: R) | Failure(error: E)
}
