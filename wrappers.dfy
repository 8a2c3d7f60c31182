/** Optional values and results with an error, used wherever the controller
    reads a field that may be missing or calls the API server. */
module Wrappers {

  datatype Option<+T> = None | Some(value: T)

  datatype Result<+T, +E> = Ok(value: T) | Err(error: E)
}
