/** Option and Result, used for values that JavaScript writes as null/undefined
    and for the HTTP errors that the backend raises. */
module Basics {

  datatype Option<T> = None | Some(value: T)

  datatype Result<T, E> = Ok(value: T) | Err(error: E)
}
