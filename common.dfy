/** Small value types shared by every store: optional values, outcomes of
    actions that may throw, and the opaque clock reading. */
module Common {

  /** A value that may be absent: JavaScript's `undefined`/`null` on one side. */
  datatype Option<+T> = None | Some(value: T) {
    function GetOr(default: T): T {
      match this
      case Some(v) => v
      case None => default
    }
  }

  /** The result of an action that either completes or throws an error. */
  datatype Outcome<+E> = Pass | Fail(error: E)

  /** The result of an action that returns a value or throws an error. */
  datatype Result<+R, +E> = Ok(value: R) | Err(error: E)

  /** `new Date().toISOString()`: the clock is an input of every action that reads it. */
  type Timestamp = string

  /** The value a shallow spread `{ ...current, ...patch }` leaves in one field:
      the patch's value when the patch names the field, the current one otherwise. */
  function Override<T>(current: T, patch: Option<T>): T
  {
    match patch
    case Some(v) => v
    case None => current
  }
}
