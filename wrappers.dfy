/** Failure-compatible wrappers shared by the whole model.

    Python signals failure by raising an exception of some class; the model
    returns `Err(Error(kind, msg))` instead, where `kind` names the exception
    class the source raises at that point. */
module Wrappers {

  datatype Option<+T> = None | Some(value: T) {
    predicate IsFailure() { None? }

    function PropagateFailure<U>(): Option<U>
      requires None?
    {
      None
    }

    function Extract(): T
      requires Some?
    {
      value
    }

    function GetOr(default: T): T {
      if Some? then value else default
    }
  }

  /** The Python exception classes the core raises. */
  datatype ErrorKind =
    | ParseError
    | CompileError
    | RuntimeError
    | KeyError
    | ValueError
    | TypeError
    | IndexError
    | AttributeError
    | AssertionError

  datatype Error = Error(kind: ErrorKind, msg: string)

  datatype Result<+T> = Ok(value: T) | Err(error: Error) {
    predicate IsFailure() { Err? }

    function PropagateFailure<U>(): Result<U>
      requires Err?
    {
      Err(error)
    }

    function Extract(): T
      requires Ok?
    {
      value
    }
  }

  /** An operation that either completes or raises, with nothing to return. */
  datatype Outcome = Pass | Fail(error: Error) {
    predicate IsFailure() { Fail? }

    function PropagateFailure<U>(): Result<U>
      requires Fail?
    {
      Err(error)
    }
  }

  function Raise<T>(kind: ErrorKind, msg: string): Result<T> {
    Err(Error(kind, msg))
  }
}
