/** Python's built-in range(), the order in which every loop of the scripts
    visits its indices. */
module Ranges {
  /** Python's range(lo, hi) as the list of integers it visits: lo first,
      then range(lo + 1, hi); nothing once lo reaches hi. It is hi - lo
      consecutive ascending integers. */
  function Range(lo: int, hi: int): (r: seq<int>)
    ensures |r| == if lo < hi then hi - lo else 0
    ensures forall k :: 0 <= k < |r| ==> r[k] == lo + k
    decreases hi - lo
  {
    if lo < hi then [lo] + Range(lo + 1, hi) else []
  }

  /** range(lo, hi + 1) is range(lo, hi) followed by hi. */
  lemma RangeSnoc(lo: int, hi: int)
    requires lo <= hi
    ensures Range(lo, hi + 1) == Range(lo, hi) + [hi]
  {
    assert forall k :: 0 <= k < hi + 1 - lo ==> Range(lo, hi + 1)[k] == (Range(lo, hi) + [hi])[k];
  }
}
