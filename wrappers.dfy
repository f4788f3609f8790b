/** Optional values and results with an error, for arguments the source may omit and for
    the exceptions its methods throw. */
module Wrappers {

  /** An argument or a lookup that may be absent (`undefined` or `false` in the source). */
  datatype Option<+T> = None | Some(value: T)

  /** The outcome of an operation that either returns a value or throws. */
  datatype Result<+T, +E> = Success(value: T) | Failure(error: E)
}
