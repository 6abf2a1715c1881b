/** Option and Result, the two wrappers every module of the model uses for
    absent values and for calls that can fail. */
module Wrappers {

  datatype Option<T> = None | Some(value: T)

  datatype Result<T, E> = Ok(value: T) | Err(error: E)
}
