/** Optional values and results that carry an error, for the source's
    "maybe" values (std::optional, a null pointer, a -1 index) and its
    failure paths. */
module Wrappers {
  datatype Option<T> = None | Some(value: T)

  datatype Result<T, E> = Ok(value: T) | Err(error: E)
}
