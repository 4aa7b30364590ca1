/** Option values and the first-match lookup shared by the front end (`Array.prototype.find`
    and `some`) and the user store (`findOne`). */
module Lookup {

  datatype Option<T> = None | Some(value: T)

  /** Index of the first element of `s` whose key is `k`, or None when no element has that key. */
  function FindFirst<T, K(==)>(s: seq<T>, key: T -> K, k: K): (r: Option<nat>)
    ensures r.Some? ==> r.value < |s| && key(s[r.value]) == k
    ensures r.Some? ==> forall j :: 0 <= j < r.value ==> key(s[j]) != k
    ensures r.None? <==> forall j :: 0 <= j < |s| ==> key(s[j]) != k
    decreases |s|
  {
    if |s| == 0 then None
    else if key(s[0]) == k then Some(0)
    else match FindFirst(s[1..], key, k)
      case None => None
      case Some(i) => Some(i + 1)
  }
}
