/** Optional values and the outcome of a call that may raise a Python exception. */
module Wrappers {

  datatype Option<+T> = None | Some(value: T)

  /** The two kinds of exception the programs tell apart: `KeyboardInterrupt`
      (not caught by `except Exception`) and every other `Exception`. */
  datatype ErrorKind = Interrupt | Failure

  /** What a call returns, or the exception it raises. */
  datatype Result<+T> = Ok(value: T) | Err(kind: ErrorKind)
}
