/** Small failure-carrying datatypes shared by every module: Go's
    `(value, err)` pairs and `panic` values become explicit results. */
module Wrappers {

  datatype Option<+T> = None | Some(value: T)

  datatype Result<+T, +E> = Ok(value: T) | Err(error: E)
}
