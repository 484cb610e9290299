/** Optional values and results with an error, shared by the whole model. */
module Wrappers {

  /** A value that may be absent: an omitted request field, a missing reply. */
  datatype Option<+T> = None | Some(value: T)

  /** The outcome of a route: a value, or the error the route answers with. */
  datatype Result<+T, +E> = Ok(value: T) | Err(error: E)
}
