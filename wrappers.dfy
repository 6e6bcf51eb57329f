/** Failure-compatible wrappers shared by the model, and the shape of a JSON
    object member read with `obj[key]`. */
module Wrappers {

  datatype Option<+T> = None | Some(value: T)

  datatype Result<+R, +E> = Success(value: R) | Failure(error: E)

  /** Pass, or the exception an operation raised. */
  datatype Outcome<+E> = Pass | Fail(error: E)

  /** A member of a decoded JSON object: missing (subscripting raises
      KeyError), present with the value null (Python's None), or present. */
  datatype Member<+T> = Absent | Null | Present(value: T)

  /** What `obj.get(key, None)` yields for a member. */
  function GetOrNone<T>(m: Member<T>): (r: Option<T>)
    ensures r.Some? <==> m.Present?
    ensures r.Some? ==> r.value == m.value
  {
    match m
    case Present(v) => Some(v)
    case _ => None
  }
}
