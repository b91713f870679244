/** Optional values and results with an error, for Python's `None` and for the
    exceptions the admin hooks can raise. */
module Wrappers {

  datatype Option<+T> = None | Some(value: T)

  datatype Result<+T, +E> = Ok(value: T) | Err(error: E)
}
