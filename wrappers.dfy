/** Failure-compatible wrappers shared by every module of the model. */
module Wrappers {

  /** A value that may be absent: Python's `None`. */
  datatype Option<+T> = None | Some(value: T) {
    function GetOr(default: T): T {
      match this
      case Some(v) => v
      case None => default
    }
  }

  /** The outcome of an operation that may raise: `Failure` carries the exception. */
  datatype Result<+R, +E> = Success(value: R) | Failure(error: E) {
    predicate IsFailure() {
      Failure?
    }

    function PropagateFailure<U>(): Result<U, E>
      requires Failure?
    {
      Failure(error)
    }

    function Extract(): R
      requires Success?
    {
      value
    }
  }

  /** The exceptions the modelled code raises, by Python class. */
  datatype PyError =
    | IndexError
    | KeyError(key: seq<char>)
    | ZeroDivisionError
    | ValueError(message: seq<char>)
    | OverflowError(message: seq<char>)
    | HttpError(status: int, detail: seq<char>)
}
