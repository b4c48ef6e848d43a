/** Failure-carrying values shared by every module of the model.

    The scripts never catch their exceptions: an exception ends the script.
    The model returns `Err(e)` where the script would raise `e`, so that the
    error path is part of each contract instead of being excluded by it. */
module Wrappers {

  /** Python's `None` / value. */
  datatype Option<T> = None | Some(value: T)

  /** The exceptions the modelled code can raise. */
  datatype PyError =
    | TypeError              // arithmetic on None, wrong number of arguments
    | KeyError(key: string)  // missing dictionary key
    | ValueError(text: string) // int() of a string that is not an integer literal
    | IndexError             // lines[-1] of an empty list
    | UnboundLocal(name: string) // a local variable read before assignment

  /** The value of an expression, or the exception it raises. */
  datatype Result<T> = Ok(value: T) | Err(error: PyError)
}
