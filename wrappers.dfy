/** Optional values: a missing record, an absent request field, an index not found. */
module Wrappers {

  datatype Option<+T> = None | Some(value: T)

  /** The supplied value when there is one, `default` otherwise (the spread `{ ...old, ...new }` per key). */
  function OrElse<T>(o: Option<T>, default: T): (r: T)
    ensures o.Some? ==> r == o.value
    ensures o.None? ==> r == default
  {
    match o
    case Some(v) => v
    case None => default
  }
}
