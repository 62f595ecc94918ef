/** Option and Result values standing for Python's `None` and raised exceptions. */
module Wrappers {

  datatype Option<+T> = None | Some(value: T)

  /** The exception classes the modelled code can raise. */
  datatype Errore = ValueError | KeyError | TypeError

  datatype Result<+T> = Ok(value: T) | Err(error: Errore)
}
