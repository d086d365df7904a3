/** Results of operations that can raise, in the Python exceptions the
    modelled code raises. */
module Errors {

  datatype Option<T> = None | Some(value: T)

  /** The Python exceptions the modelled code can raise. */
  datatype Fault = KeyError | TypeError | IndexError | AttributeError | ValueError

  datatype Result<T> = Ok(value: T) | Err(fault: Fault)
}
