/** Option and Result, used for Python's None and for raised exceptions. */
module Wrappers {

  datatype Option<+T> = None | Some(value: T)

  /** The exceptions the modelled Python code can raise, by class name. */
  datatype PyError =
    | ValueError
    | TypeError
    | KeyError
    | AttributeError
    | ParseError
    | InvalidOperation

  datatype Result<+T> = Ok(value: T) | Err(error: PyError)
}
