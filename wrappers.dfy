/** Option and Result wrappers, and the exceptions of the backup tool. */
module Wrappers {

  datatype Option<+T> = None | Some(value: T)

  /** The exceptions the modelled code raises. `ConfigError` and
      `RuntimeError` carry the tool's own message; the built-in Python
      exceptions are kept by kind only; `External` is the failure of a
      collaborator outside the model (a command, an upload, a file write). */
  datatype Error =
    | ConfigError(msg: string)
    | RuntimeError(msg: string)
    | TypeError
    | AttributeError
    | ValueError
    | OverflowError
    | External(msg: string)
  {
    /** The text `to_str(e)` gives for the exception. */
    function Text(): string
    {
      match this
      case ConfigError(m) => m
      case RuntimeError(m) => m
      case TypeError => "TypeError"
      case AttributeError => "AttributeError"
      case ValueError => "ValueError"
      case OverflowError => "OverflowError"
      case External(m) => m
    }
  }

  datatype Result<+T> = Ok(value: T) | Err(error: Error)
  {
    predicate IsFailure() { Err? }

    function PropagateFailure<U>(): Result<U>
      requires Err?
    {
      Err(error)
    }

    function Extract(): T
      requires Ok?
    {
      value
    }
  }
}
