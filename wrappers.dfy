/** Optional values: a database column that may be NULL, a request field that may be absent. */
module Wrappers {

  datatype Option<+T> = None | Some(value: T)

  /** The one-element list of a present value, the empty list otherwise. */
  function ToSeq<T>(o: Option<T>): (s: seq<T>)
    ensures |s| <= 1
    ensures o.None? ==> s == []
    ensures o.Some? ==> s == [o.value]
  {
    match o
    case None => []
    case Some(v) => [v]
  }
}
