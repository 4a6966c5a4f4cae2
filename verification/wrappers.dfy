/** The optional-value and value-or-error datatypes the health model returns. */
module Wrappers {

  datatype Option<+T> = None | Some(value: T)

  /** Either a value or one of the plugin's error kinds. */
  datatype Result<+R, +E> = Success(value: R) | Failure(error: E)
}
