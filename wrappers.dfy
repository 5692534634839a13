/** Optional values and results with an error message, for the Java code's null returns and exceptions. */
module Wrappers {

  datatype Option<T> = None | Some(value: T)

  datatype Result<T> = Ok(value: T) | Err(error: string)
}
