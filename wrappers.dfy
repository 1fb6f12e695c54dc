/**
 * Option and Result types, and the Python exceptions the modelled code raises.
 */
module Wrappers {
  datatype Option<T> = None | Some(value: T)

  /** The exception classes the modelled code raises or lets through. */
  datatype Kind =
    | ValueError
    | TypeError
    | AttributeError
    | KeyError
    | NotImplementedError
    | RecursionError
    | InvalidParamDefinition
    | UserError   // raised by user code (callbacks, `run`, `next_call`)

  datatype Exc = Exc(kind: Kind, msg: string)

  datatype Result<T> = Ok(value: T) | Err(error: Exc)
  {
    predicate IsOk() { Ok? }
    predicate IsFailure() { Err? }
    function PropagateFailure<U>(): Result<U>
      requires Err?
    {
      Err(error)
    }
    function Extract(): T
      requires Ok?
    {
      value
    }
  }

  /** A success without a value is `Ok(())`. */
  lemma OkUnit(r: Result<()>)
    requires r.Ok?
    ensures r == Ok(())
  {
    match r.value { case () => }
  }

  function Raise<T>(kind: Kind, msg: string): Result<T>
  {
    Err(Exc(kind, msg))
  }
}
