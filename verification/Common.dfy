/** Datatypes shared by the models. */
module Common {

  datatype Option<+T> = None | Some(value: T)

  /** A Go `(value, error)` return: either a value with a nil error, or an error. */
  datatype Result<+T, +E> = Ok(value: T) | Err(error: E)
}
