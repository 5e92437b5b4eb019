/** Optional values and results with an error, used wherever the JavaScript code
    has `null`/`undefined`, `NaN`, or a thrown error. */
module Wrappers {

  datatype Option<T> = None | Some(value: T)

  datatype Result<T, E> = Ok(value: T) | Err(error: E)
}
