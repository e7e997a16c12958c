/** Option and Result, used for Python's `None` and for the conditions that stop the app. */
module Wrappers {

  datatype Option<+T> = None | Some(value: T)

  datatype Result<+R, +E> = Success(value: R) | Failure(error: E)

  /** Index of the first present entry of `xs`, if any: the shape of Python's
      `a or b or c` over values that are either absent or always truthy. */
  function FirstSomeIndex<T>(xs: seq<Option<T>>): (r: Option<nat>)
    ensures r.Some? ==> r.value < |xs| && xs[r.value].Some?
    ensures r.Some? ==> forall j :: 0 <= j < r.value ==> xs[j].None?
    ensures r.None? <==> forall j :: 0 <= j < |xs| ==> xs[j].None?
  {
    if |xs| == 0 then None
    else if xs[0].Some? then Some(0)
    else
      match FirstSomeIndex(xs[1..])
      case None => None
      case Some(i) => Some(i + 1)
  }

  /** The first present entry of `xs`, or `fallback` when every entry is absent. */
  function FirstSomeOr<T>(xs: seq<Option<T>>, fallback: T): (r: T)
    ensures (forall j :: 0 <= j < |xs| ==> xs[j].None?) ==> r == fallback
    ensures forall i :: 0 <= i < |xs| && xs[i].Some? && (forall j :: 0 <= j < i ==> xs[j].None?) ==>
              r == xs[i].value
  {
    match FirstSomeIndex(xs)
    case None => fallback
    case Some(i) => xs[i].value
  }

  /** Python truthiness of a string-or-None: present and not the empty string. */
  predicate Truthy(s: Option<string>) {
    s.Some? && s.value != ""
  }
}
