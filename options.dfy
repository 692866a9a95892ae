/** An optional value: the model's reading of a property that may be `undefined`. */
module Options {

  datatype Option<+T> = None | Some(value: T)

  /** The one-element or empty sequence holding the value, if any. */
  function ToSeq<T>(o: Option<T>): (s: seq<T>)
    ensures |s| <= 1
    ensures o.None? <==> s == []
    ensures o.Some? ==> s == [o.value]
  {
    match o
    case None => []
    case Some(v) => [v]
  }
}
