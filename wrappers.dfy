/** Option, Result and Outcome: `undefined`, thrown errors and rejected promises of the services. */
module Wrappers {

  /** A value that may be `undefined`. */
  datatype Option<T> = None | Some(value: T) {
    /** The value, or `default` when undefined (the `??` operator). */
    function GetOr(default: T): T {
      match this
      case Some(v) => v
      case None => default
    }
  }

  /** A returned value, or the error the call throws. */
  datatype Result<T, E> = Ok(value: T) | Err(error: E)

  /** A call that returns nothing, or the error it throws. */
  datatype Outcome<E> = Pass | Fail(error: E)
}
