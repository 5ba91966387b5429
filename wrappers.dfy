/** Option and Result, and the Python exceptions the model's error paths raise. */
module Wrappers {

  datatype Option<+T> = None | Some(value: T)

  datatype Result<+T, +E> = Ok(value: T) | Err(error: E)

  /** The exceptions the modelled code can raise (and, where it does, leaves uncaught). */
  datatype PyError =
    | AttributeError
    | KeyError
    | IndexError
    | NameError
    | TypeError
    | ValueError
    | RuntimeError
}
