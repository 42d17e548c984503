/** Option and Result values shared by the modules of this model. */
module Wrappers {

  /** Go's nilable results: `None` stands for nil. */
  datatype Option<+T> = None | Some(value: T)

  /** A value or an error, for Go functions that return `(T, error)`. */
  datatype Result<+T, +E> = Success(value: T) | Failure(error: E)
}
