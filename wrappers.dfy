/** Optional values and error-carrying results shared by every module. */
module Wrappers {

  /** A nullable value: a column that may hold `null`, a header that may be absent. */
  datatype Option<T> = None | Some(value: T)

  /** The outcome of an operation that either returns a value or throws a domain error. */
  datatype Result<T, E> = Ok(value: T) | Err(error: E)
}
