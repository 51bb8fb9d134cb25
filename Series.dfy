/**
 * Folds over history series: the numpy reductions `score_run` applies
 * (`sum`, `min`, the count of true flags, the first true flag).
 */
module Series {
  import opened Optional

  /** Sum of a series, accumulated from the front. */
  function Sum(s: seq<real>): real
  {
    if |s| == 0 then 0.0 else Sum(s[..|s| - 1]) + s[|s| - 1]
  }

  lemma SumAppend(s: seq<real>, c: real)
    ensures Sum(s + [c]) == Sum(s) + c
  {
    assert (s + [c])[..|s|] == s;
  }

  /** Every entry is zero. */
  predicate AllZero(s: seq<real>)
  {
    forall i :: 0 <= i < |s| ==> s[i] == 0.0
  }

  /** Every entry is zero except the one at index `j`, which is `c`. */
  predicate Spike(s: seq<real>, j: int, c: real)
  {
    0 <= j < |s| && forall i :: 0 <= i < |s| ==> s[i] == if i == j then c else 0.0
  }

  /** A series that is zero except at one index sums to the value there. */
  lemma {:induction false} SumOfSpike(s: seq<real>, j: nat, c: real)
    requires Spike(s, j, c)
    ensures Sum(s) == c
  {
    var init := s[..|s| - 1];
    if |s| - 1 == j {
      SumOfZeros(init);
    } else {
      SumOfSpike(init, j, c);
    }
  }

  lemma {:induction false} SumOfZeros(s: seq<real>)
    requires AllZero(s)
    ensures Sum(s) == 0.0
  {
    if |s| > 0 {
      SumOfZeros(s[..|s| - 1]);
    }
  }

  /** Number of true flags in a series. */
  function CountTrue(s: seq<bool>): (c: nat)
    ensures c <= |s|
    ensures c == 0 <==> forall i :: 0 <= i < |s| ==> !s[i]
  {
    if |s| == 0 then 0
    else
      var init := s[..|s| - 1];
      assert forall i :: 0 <= i < |s| - 1 ==> s[i] == init[i];
      CountTrue(init) + (if s[|s| - 1] then 1 else 0)
  }

  /** Smallest value of a non-empty series. */
  function MinOf(s: seq<real>): (m: real)
    requires |s| > 0
    ensures forall i :: 0 <= i < |s| ==> m <= s[i]
    ensures exists i :: 0 <= i < |s| && s[i] == m
  {
    if |s| == 1 then s[0]
    else
      var rest := MinOf(s[1..]);
      assert forall i :: 1 <= i < |s| ==> s[i] == s[1..][i - 1];
      if s[0] <= rest then s[0] else rest
  }

  /** Index of the first true flag, if any. */
  function FirstTrue(s: seq<bool>): (r: Option<nat>)
    ensures r.None? <==> forall i :: 0 <= i < |s| ==> !s[i]
    ensures r.Some? ==> r.value < |s| && s[r.value] && forall i :: 0 <= i < r.value ==> !s[i]
  {
    if |s| == 0 then None
    else if s[0] then Some(0)
    else
      match FirstTrue(s[1..])
      case None =>
        assert forall i :: 1 <= i < |s| ==> s[i] == s[1..][i - 1];
        None
      case Some(j) =>
        assert forall i :: 1 <= i <= j + 1 ==> s[i] == s[1..][i - 1];
        Some(j + 1)
  }
}
