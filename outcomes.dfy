/** Option and Result, the two ways the services report absence and failure. */
module Outcomes {

  /** A value that may be missing: the source's `T | null` and optional fields. */
  datatype Option<+T> = None | Some(value: T) {
    function GetOr(default: T): T {
      match this
      case Some(v) => v
      case None => default
    }
  }

  /** Why a store request was rejected. */
  datatype StoreError =
    | Unavailable       // the database never opened, so every request throws
    | ConstraintError   // an `add` would break the unique `email` index
    | AlarmNotFound     // `updateAlarm` rejects with Error('Alarm not found')

  /** A settled Promise: resolved with a value or rejected with an error. */
  datatype Result<+T> = Ok(value: T) | Err(error: StoreError)
}
