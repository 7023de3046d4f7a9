/**
 * Python's `str.count(sub)` on text: the number of non-overlapping,
 * case-sensitive occurrences of `sub`, found by a left-to-right scan that
 * resumes right after each match. An empty `sub` matches at every one of the
 * `|t| + 1` positions, as in Python.
 */
module Phrases {

  /** `p` occurs in `t` starting at index `i`. */
  predicate OccursAt(t: string, p: string, i: int)
  {
    0 <= i && i + |p| <= |t| && t[i..i + |p|] == p
  }

  /** Positions `ms`, in increasing order, of occurrences that do not overlap. */
  predicate NonOverlapping(p: string, ms: seq<nat>)
  {
    forall j, k :: 0 <= j < k < |ms| ==> ms[j] + |p| <= ms[k]
  }

  /** Every position in `ms` is an occurrence of `p` in `t` at or after `from`. */
  predicate AllOccur(t: string, p: string, ms: seq<nat>, from: nat)
  {
    forall k :: 0 <= k < |ms| ==> from <= ms[k] && OccursAt(t, p, ms[k])
  }

  /** The scan of `t` for a non-empty `p`, started at index `i`. */
  function CountFrom(t: string, p: string, i: nat): (n: nat)
    requires 0 < |p| && i <= |t|
    decreases |t| - i
    ensures n * |p| <= |t| - i
  {
    if |t| - i < |p| then 0
    else if t[i..i + |p|] == p then
      var rest := CountFrom(t, p, i + |p|);
      assert (1 + rest) * |p| == |p| + rest * |p|;
      1 + rest
    else CountFrom(t, p, i + 1)
  }

  /** `t.count(p)`: the occurrences it counts cover disjoint stretches of `t`. */
  function Count(t: string, p: string): (n: nat)
    ensures p == [] ==> n == |t| + 1
    ensures n * |p| <= |t|
  {
    if p == [] then |t| + 1 else CountFrom(t, p, 0)
  }

  /** The positions at which the scan from `i` counts a match. */
  function MatchesFrom(t: string, p: string, i: nat): (ms: seq<nat>)
    requires 0 < |p| && i <= |t|
    decreases |t| - i
    ensures |ms| == CountFrom(t, p, i)
    ensures AllOccur(t, p, ms, i)
    ensures NonOverlapping(p, ms)
  {
    if |t| - i < |p| then []
    else if t[i..i + |p|] == p then [i] + MatchesFrom(t, p, i + |p|)
    else MatchesFrom(t, p, i + 1)
  }

  /** No family of non-overlapping occurrences at or after `i` is larger than the scan's count. */
  lemma {:induction false} ScanIsMaximal(t: string, p: string, i: nat, ms: seq<nat>)
    requires 0 < |p| && i <= |t|
    requires AllOccur(t, p, ms, i) && NonOverlapping(p, ms)
    ensures |ms| <= CountFrom(t, p, i)
    decreases |t| - i
  {
    if ms != [] {
      assert OccursAt(t, p, ms[0]);
      if t[i..i + |p|] == p {
        assert forall k :: 0 <= k < |ms| - 1 ==> ms[0] + |p| <= ms[1..][k];
        ScanIsMaximal(t, p, i + |p|, ms[1..]);
      } else {
        assert ms[0] != i;
        assert forall k :: 0 < k < |ms| ==> ms[0] < ms[k];
        ScanIsMaximal(t, p, i + 1, ms);
      }
    }
  }

  /** `Count` is the largest number of non-overlapping occurrences of `p` in `t` ... */
  lemma CountIsMaximal(t: string, p: string, ms: seq<nat>)
    requires 0 < |p|
    requires AllOccur(t, p, ms, 0) && NonOverlapping(p, ms)
    ensures |ms| <= Count(t, p)
  {
    ScanIsMaximal(t, p, 0, ms);
  }

  /** ... and that many are found. */
  function Matches(t: string, p: string): (ms: seq<nat>)
    requires 0 < |p|
    ensures |ms| == Count(t, p)
    ensures AllOccur(t, p, ms, 0) && NonOverlapping(p, ms)
  {
    MatchesFrom(t, p, 0)
  }

  /** The count is zero exactly when `p` is not a substring of `t`. */
  lemma CountZeroIff(t: string, p: string)
    ensures Count(t, p) == 0 <==> forall i :: !OccursAt(t, p, i)
  {
    if p == [] {
      assert OccursAt(t, p, 0);
    } else {
      if i :| OccursAt(t, p, i) {
        CountIsMaximal(t, p, [i]);
      }
      if Count(t, p) > 0 {
        var ms := Matches(t, p);
        assert OccursAt(t, p, ms[0]);
      }
    }
  }
}
