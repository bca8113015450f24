/** Results and errors shared by every module of the model.
    Each constructor of `Error` stands for the Python exception class the
    source raises on that path. */
module Wrappers {

  datatype Error =
    | ValueError
    | TypeError
    | KeyError
    | IndexError
    | AttributeError
    | NotImplementedError
    | ZeroDivisionError
    | RuntimeError
      /** A RuntimeError whose message names the failing frame (1-based). */
    | FrameFailed(frame: nat)

  datatype Option<+T> = None | Some(value: T)

  /** A value or the exception raised instead of returning it. */
  datatype Result<+T> = Ok(value: T) | Err(error: Error) {
    predicate IsFailure() { Err? }

    function PropagateFailure<U>(): Result<U>
      requires Err?
    {
      Err(error)
    }

    function Extract(): T
      requires Ok?
    {
      value
    }
  }

  /** The outcome of a procedure that returns None or raises. */
  datatype Outcome = Pass | Fail(error: Error) {
    predicate IsFailure() { Fail? }

    function PropagateFailure(): Outcome
      requires Fail?
    {
      this
    }
  }
}
