/** The Python outcomes the model needs: an optional value, and a result
    that is either a value or the exception the source would raise. */
module Py {
  datatype Option<T> = None | Some(value: T)

  /** The built-in exceptions the modelled code can raise. */
  datatype Exception = KeyError | TypeError | IndexError

  datatype Result<T> = Ok(value: T) | Err(error: Exception)
}
