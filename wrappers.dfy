/** Optional values and results with an error, shared by the backend and the front end. */
module Wrappers {

  /** A value that may be absent (Python's None, TypeScript's null). */
  datatype Option<+T> = None | Some(value: T)

  /** The outcome of a view: a value, or the exception the view raises. */
  datatype Result<+T, +E> = Ok(value: T) | Err(error: E)
}
