/** Optional values and error-or-value results shared by the registry modules. */
module Outcomes {

  /** A value that may be absent; `None` stands for Python's `None`. */
  datatype Option<T> = None | Some(value: T)

  /** Either the value an operation produced or the error it reported. */
  datatype Result<T, E> = Success(value: T) | Failure(error: E)
}
