/**
 * Option and Result values shared by every module, and the kinds of
 * exception the Python core raises, so that an error path is a value of
 * the model rather than a precondition.
 */
module Wrappers {

  datatype Option<T> = None | Some(value: T)
  {
    function GetOr(default: T): T
    {
      match this
      case None => default
      case Some(v) => v
    }
  }

  /** The Python exception classes the core raises, with their message. */
  datatype Error =
    | ValueError(msg: string)
    | KeyError(key: string)
    | IndexError
    | NotImplementedError(msg: string)
    | AttributeError(msg: string)
    | TypeError(msg: string)
    | RecursionError
    | Exception(msg: string)
    | StopIteration
    | UnboundLocalError(name: string)

  datatype Result<T> = Ok(value: T) | Err(error: Error)
  {
    predicate IsFailure() { Err? }

    function PropagateFailure<U>(): Result<U>
      requires Err?
    {
      Err(error)
    }

    function Extract(): T
      requires Ok?
    {
      value
    }
  }
}
