/** Option and Result: the lookups that may find nothing and the handlers
    that answer either with data or with an error response. */
module Wrappers {

  datatype Option<+T> = None | Some(value: T)

  datatype Result<+T, +E> = Ok(value: T) | Err(error: E)
}
