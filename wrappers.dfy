/** Optional values and results with an error, the shape the model gives to
    Python's `None` and to the exceptions the scorers and the router raise. */
module Wrappers {

  datatype Option<+T> = None | Some(value: T)

  datatype Result<+T, +E> = Ok(value: T) | Err(error: E)
}
