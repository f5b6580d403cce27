/** Optional values and error results shared by every module. */
module Wrappers {
  datatype Option<T> = None | Some(value: T)

  datatype Result<T, E> = Success(value: T) | Failure(error: E)

  /** `dict.get(key, default)` for an optional value: a present value, falsy or not, is kept. */
  function GetOr<T>(o: Option<T>, default: T): T
  {
    match o
    case None => default
    case Some(v) => v
  }

  /** A field of a stored row or a JSON object: missing, present but null, or holding a value. */
  datatype Field<T> = Absent | Null | Value(v: T)

  /** `.get(key, default)` on a field: a missing field takes `default`, a null one reads as `None`. */
  function ReadField<T>(f: Field<T>, default: T): (r: Option<T>)
    ensures f.Absent? ==> r == Some(default)
    ensures f.Null? <==> r.None?
    ensures f.Value? ==> r == Some(f.v)
  {
    match f
    case Absent => Some(default)
    case Null => None
    case Value(v) => Some(v)
  }
}
