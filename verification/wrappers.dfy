/** Result type used for the layer's fatal checks. */
module Wrappers {

  /** Either a value or the error that stopped the computation. */
  datatype Result<+T, +E> = Success(value: T) | Failure(error: E)
}
