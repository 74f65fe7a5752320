/** Failure-carrying wrappers shared by the storage modules. */
module Results {

  /** A value that may be absent; Python's `None` return. */
  datatype Option<+T> = None | Some(value: T)

  /** A value or the error that stopped its computation; Python's raised exception. */
  datatype Result<+T, +E> = Success(value: T) | Failure(error: E)
}
