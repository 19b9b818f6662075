/** Optional values and results with an error, used for the JavaScript
    `undefined` fields of a message and for rejected promises. */
module Wrappers {

  datatype Option<+T> = None | Some(value: T)

  datatype Result<+T, +E> = Ok(value: T) | Err(error: E)
}
