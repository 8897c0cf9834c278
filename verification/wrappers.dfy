/** Failure-compatible wrappers shared by every module of the model, and the
    Python exception kinds that the modelled code can raise or propagate. */
module Wrappers {

  /** The conventional Some/None datatype, used for Python's `None` and for
      the outcome of a foreign call that may not produce a value. */
  datatype Option<+T> = None | Some(value: T)

  /** A value or the exception the Python code would raise instead. */
  datatype Result<+T, +E> = Success(value: T) | Failure(error: E) {

    predicate IsFailure() {
      Failure?
    }

    function PropagateFailure<U>(): Result<U, E>
      requires Failure?
    {
      Failure(error)
    }

    function Extract(): T
      requires Success?
    {
      value
    }
  }

  /** The Python exceptions that escape from the modelled functions. The
      message is kept where the source chooses a fixed text. */
  datatype Exception =
    | IndexError
    | KeyError(key: string)
    | TypeError
    | AttributeError
    | ValueError
    | RuntimeError(message: string)
    | IOError(message: string)
    /** An exception raised inside a foreign library that the code lets
        through unchanged (the ORB, the naming service). */
    | ForeignError
}
