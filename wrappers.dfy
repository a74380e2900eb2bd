/** Failure-compatible wrappers shared by every module of the model. */
module Wrappers {

  /** An optional value; `None` stands for JavaScript's `undefined`. */
  datatype Option<+T> = None | Some(value: T) {
    predicate IsFailure() { None? }

    function PropagateFailure<U>(): Option<U>
      requires None?
    {
      None
    }

    function Extract(): T
      requires Some?
    {
      value
    }
  }

  /** A value or the error that was thrown or rejected instead. */
  datatype Result<+T, +E> = Success(value: T) | Failure(error: E) {
    predicate IsFailure() { Failure? }

    function PropagateFailure<U>(): Result<U, E>
      requires Failure?
    {
      Failure(error)
    }

    function Extract(): T
      requires Success?
    {
      value
    }
  }

  /** Success or an error, for operations that produce no value. */
  datatype Outcome<+E> = Pass | Fail(error: E)
}

/** The errors the core raises or passes along (lib/errors.js and the runtime's own). */
module Errors {

  datatype Error =
    | LerretError(message: string)              // `new LerretError(...)`, message built by util.format
    | PlainError(message: string)               // `new Error(...)`, as thrown by config.get
    | SystemError(code: string, message: string) // errors raised by fs, require or the runtime, with their `code`
    | TypeError(message: string)                // the runtime's own TypeError, e.g. reading a property of null
}
