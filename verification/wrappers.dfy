/** Optional values, standing in for the JavaScript `null` / `undefined` / "not a number" cases. */
module Wrappers {

  datatype Option<+T> = None | Some(value: T)

  /** The first present value of a list of alternatives, or None when all are absent. */
  function FirstPresent<T>(alternatives: seq<Option<T>>): (r: Option<T>)
    ensures r.Some? <==> exists i :: 0 <= i < |alternatives| && alternatives[i].Some?
    ensures r.Some? ==> r in alternatives
    ensures r.Some? ==> exists i :: 0 <= i < |alternatives| && alternatives[i] == r &&
                                    forall j :: 0 <= j < i ==> alternatives[j].None?
  {
    if alternatives == [] then None
    else if alternatives[0].Some? then alternatives[0]
    else FirstPresent(alternatives[1..])
  }
}
