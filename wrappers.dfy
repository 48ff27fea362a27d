/** Optional values (a JavaScript `null`/`undefined` or an absent key) and
    results that may carry the message of a thrown `Error`. */
module Wrappers {

  datatype Option<+T> = None | Some(value: T)

  /** `Err(message)` stands for `throw new Error(message)`. */
  datatype Result<+T> = Ok(value: T) | Err(message: string)

  /** The value of an optional patch field: the supplied one, else the current one
      (what an object spread `{ ...current, ...patch }` does for one key). */
  function Override<T>(patch: Option<T>, current: T): (r: T)
    ensures patch.None? ==> r == current
    ensures patch.Some? ==> r == patch.value
  {
    match patch
    case None => current
    case Some(v) => v
  }
}
