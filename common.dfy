/** Small helpers shared by the model: optional values, results that carry
    the exception a Python operation would raise, and `list.index`. */
module Common {

  datatype Option<+T> = None | Some(value: T)

  /** The outcome of an operation that either returns a value or raises. */
  datatype Result<+T, +E> = Success(value: T) | Failure(error: E)

  /** Python's `list.index` on a list of strings: the position of the first
      occurrence, or `None` where Python raises `ValueError`. */
  function IndexOf(ss: seq<string>, s: string): (r: Option<nat>)
    ensures r.Some? ==> r.value < |ss| && ss[r.value] == s
    ensures r.Some? ==> forall k :: 0 <= k < r.value ==> ss[k] != s
    ensures r.None? <==> s !in ss
  {
    if ss == [] then None
    else if ss[0] == s then Some(0)
    else match IndexOf(ss[1..], s)
      case None => None
      case Some(k) => Some(k + 1)
  }
}
