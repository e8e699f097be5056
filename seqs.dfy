/** Comparing a collection before and after an in-place pass over it. */
module Seqs {

  /** The new values at the positions where `after` differs from `before`, in order. */
  function Changed<T(==)>(before: seq<T>, after: seq<T>): seq<T>
    requires |before| == |after|
    decreases |before|
  {
    if |before| == 0 then []
    else
      var n := |before| - 1;
      Changed(before[..n], after[..n]) + (if before[n] != after[n] then [after[n]] else [])
  }

  /** A pass that changes nothing reports no change. */
  lemma {:induction false} ChangedSelf<T>(s: seq<T>)
    ensures Changed(s, s) == []
    decreases |s|
  {
    if |s| > 0 {
      ChangedSelf(s[..|s| - 1]);
    }
  }
}
