/** Linear search for the first element with a property: the `for ... if ...: break` scans. */
module Search {
  import opened Wrappers

  /** The index of the first element of `s` satisfying `p`, if there is one. */
  function First<T>(s: seq<T>, p: T -> bool): (k: Option<nat>)
    ensures k.Some? ==> k.value < |s| && p(s[k.value])
    ensures k.Some? ==> forall j :: 0 <= j < k.value ==> !p(s[j])
    ensures k.None? ==> forall j :: 0 <= j < |s| ==> !p(s[j])
  {
    if s == [] then None
    else if p(s[0]) then Some(0)
    else
      match First(s[1..], p)
      case None => None
      case Some(k) => Some(k + 1)
  }
}
