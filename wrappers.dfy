// Optional values, thrown values and results shared by every module of the model.

module Wrappers {

  /** A value that may be absent (`undefined` or `null` in the runtime). */
  datatype Option<T> = None | Some(value: T)
  {
    /** The `??` operator: the value when present, the fallback otherwise. */
    function GetOr(fallback: T): T
    {
      match this
      case None => fallback
      case Some(v) => v
    }

    /** `a ?? b` where both sides may be absent. */
    function OrElse(other: Option<T>): Option<T>
    {
      if this.Some? then this else other
    }
  }

  /** What a `throw` carries: an `Error` with its message, or any other value. */
  datatype Thrown = Error(message: string) | NonError

  /** The outcome of an operation that may throw. */
  datatype Result<T> = Ok(value: T) | Err(error: Thrown)

  /** The outcome of an operation that returns nothing but may throw. */
  datatype Outcome = Done | Failed(error: Thrown)
}
