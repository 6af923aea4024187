/** Searching a sequence from its end, as Rust's `Iterator::rposition`. */
module Search {
  import opened Wrappers

  /** The index of the last element of `s` that satisfies `p`, if any. */
  function RPosition<T>(s: seq<T>, p: T -> bool): (r: Option<nat>)
    ensures r.Some? ==> r.value < |s| && p(s[r.value])
    ensures r.Some? ==> forall j :: r.value < j < |s| ==> !p(s[j])
    ensures r.None? ==> forall j :: 0 <= j < |s| ==> !p(s[j])
    decreases |s|
  {
    if |s| == 0 then None
    else if p(s[|s| - 1]) then Some(|s| - 1)
    else RPosition(s[..|s| - 1], p)
  }

  /** Appending an element: it is found if it matches, otherwise the search is unchanged. */
  lemma RPositionAppend<T>(s: seq<T>, x: T, p: T -> bool)
    ensures RPosition(s + [x], p) == if p(x) then Some(|s|) else RPosition(s, p)
  {
    assert (s + [x])[..|s|] == s;
  }
}
