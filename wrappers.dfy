/** Optional values and results with an error, standing in for Python's
    `None` and its exceptions. */
module Wrappers {

  datatype Option<T> = None | Some(value: T)

  datatype Result<T> = Ok(value: T) | Err(message: string)
}
