/** Wrappers used across the model: `Option` for values a
    browser API may not return (`null`), `Result` for operations that throw. */
module Wrappers {

  datatype Option<+T> = None | Some(value: T)

  datatype Result<+R, +E> = Success(value: R) | Failure(error: E)
}
