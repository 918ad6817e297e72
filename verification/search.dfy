/** First-match linear search, the scan shape shared by every lookup in the editor. */
module Search {
  import opened Wrappers

  /** The index of the first element satisfying `p`, or `None` when there is none. */
  function FirstIndex<T>(s: seq<T>, p: T -> bool): (r: Option<nat>)
    ensures r.Some? ==> r.value < |s| && p(s[r.value])
    ensures r.Some? ==> forall j :: 0 <= j < r.value ==> !p(s[j])
    ensures r.None? <==> forall j :: 0 <= j < |s| ==> !p(s[j])
    decreases |s|
  {
    if |s| == 0 then None
    else if p(s[0]) then Some(0)
    else
      match FirstIndex(s[1..], p)
      case None => None
      case Some(k) =>
        assert s[1..][k] == s[k + 1];
        Some(k + 1)
  }

  /** Any index whose element satisfies `p` bounds the first match from above. */
  lemma FirstIndexAtMost<T>(s: seq<T>, p: T -> bool, i: nat)
    requires i < |s| && p(s[i])
    ensures FirstIndex(s, p).Some? && FirstIndex(s, p).value <= i
  {
  }

  /** Two predicates that agree on every element find the same first match. */
  lemma FirstIndexAgrees<T, U>(s: seq<T>, p: T -> bool, s': seq<U>, q: U -> bool)
    requires |s| == |s'|
    requires forall j :: 0 <= j < |s| ==> p(s[j]) == q(s'[j])
    ensures FirstIndex(s, p) == FirstIndex(s', q)
  {
    var r, r' := FirstIndex(s, p), FirstIndex(s', q);
    if r.Some? {
      FirstIndexAtMost(s', q, r.value);
    }
    if r'.Some? {
      FirstIndexAtMost(s, p, r'.value);
    }
  }
}
