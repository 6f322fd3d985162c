/** Optional values and success/error results, used for the JavaScript
    `undefined`/`null` cases and for the HTTP error responses of the handlers. */
module Wrappers {

  datatype Option<+T> = None | Some(value: T)

  datatype Result<+R, +E> = Ok(value: R) | Err(error: E)
}
