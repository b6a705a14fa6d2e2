/** Option and Result, the two shapes every accessor of the binding returns. */
module Wrappers {

  /** `Option<T>`: `None` stands for an absent value or a NULL pointer. */
  datatype Option<+T> = None | Some(value: T)

  /** `Result<T, E>`: the binding's error returns and the macro's compile errors. */
  datatype Result<+T, +E> = Success(value: T) | Failure(error: E)
}
