/** The distance of two tuples, one changed parameter at a time. */
module Distances {
  import opened ParameterSpace

  /** The number of parameters, at least one. */
  function Count(ranges: Ranges): real { (if |ranges| > 1 then |ranges| else 1) as real }

  lemma {:induction false} NothingApart(t: Tuple, ranges: Ranges)
    requires InProduct(t, ranges)
    ensures SumApart(t, t, ranges) == 0.0
  {
    if ranges != [] {
      var n := |ranges| - 1;
      NothingApart(t[..n], ranges[..n]);
    }
  }

  lemma {:induction false} OneApart(t: Tuple, k: nat, v: Value, ranges: Ranges)
    requires InProduct(t, ranges) && k < |ranges| && v in ranges[k]
    ensures InProduct(t[k := v], ranges)
    ensures SumApart(t, t[k := v], ranges) == Apart(ranges[k], t[k], v)
    decreases |ranges|
  {
    var n := |ranges| - 1;
    if k < n {
      assert t[k := v][..n] == t[..n][k := v];
      OneApart(t[..n], k, v, ranges[..n]);
    } else {
      assert t[k := v][..n] == t[..n];
      NothingApart(t[..n], ranges[..n]);
    }
  }

  /** Two tuples that differ in one parameter, at positions `i` and `j` of its range, are as far apart as
      the positions, measured by the length of the range and the number of parameters. */
  lemma SingleChange(t: Tuple, k: nat, i: nat, j: nat, ranges: Ranges)
    requires ValidRanges(ranges) && InProduct(t, ranges) && k < |ranges| && i < |ranges[k]| && j < |ranges[k]|
    requires t[k] == ranges[k][i] && |ranges[k]| > 1
    ensures InProduct(t[k := ranges[k][j]], ranges)
    ensures Distance(t, t[k := ranges[k][j]], ranges) ==
            (if i < j then j - i else i - j) as real / (|ranges[k]| - 1) as real / Count(ranges)
  {
    OneApart(t, k, ranges[k][j], ranges);
    PositionIsUnique(ranges[k], i);
    PositionIsUnique(ranges[k], j);
  }

  /** The distances of `t` to its changes in one of the first `n` parameters, added up. */
  function SumOfChanges(t: Tuple, u: Tuple, ranges: Ranges, n: nat): real
    requires InProduct(t, ranges) && InProduct(u, ranges) && n <= |ranges|
  {
    if n == 0 then 0.0
    else
      assert InProduct(t[n - 1 := u[n - 1]], ranges);
      SumOfChanges(t, u, ranges, n - 1) + Distance(t, t[n - 1 := u[n - 1]], ranges)
  }

  lemma {:induction false} ChangesAddUp(t: Tuple, u: Tuple, ranges: Ranges, n: nat)
    requires InProduct(t, ranges) && InProduct(u, ranges) && n <= |ranges|
    ensures InProduct(t[..n], ranges[..n]) && InProduct(u[..n], ranges[..n])
    ensures SumOfChanges(t, u, ranges, n) == SumApart(t[..n], u[..n], ranges[..n]) / Count(ranges)
  {
    if n > 0 {
      ChangesAddUp(t, u, ranges, n - 1);
      OneApart(t, n - 1, u[n - 1], ranges);
      assert t[..n][..n - 1] == t[..n - 1] && u[..n][..n - 1] == u[..n - 1] && ranges[..n][..n - 1] == ranges[..n - 1];
      SumOfQuotients(SumApart(t[..n - 1], u[..n - 1], ranges[..n - 1]), Apart(ranges[n - 1], t[n - 1], u[n - 1]),
                     Count(ranges));
    }
  }

  lemma SumOfQuotients(x: real, y: real, n: real)
    requires n > 0.0
    ensures x / n + y / n == (x + y) / n
  {}

  /** The distance of any two tuples is that of all single changes together. */
  lemma DistanceIsSumOfChanges(t: Tuple, u: Tuple, ranges: Ranges)
    requires InProduct(t, ranges) && InProduct(u, ranges)
    ensures Distance(t, u, ranges) == SumOfChanges(t, u, ranges, |ranges|)
  {
    ChangesAddUp(t, u, ranges, |ranges|);
    assert t[..|ranges|] == t && u[..|ranges|] == u && ranges[..|ranges|] == ranges;
  }

  // ----- The greatest distance -----

  lemma ShareAtMostOne(x: nat, n: nat)
    requires 0 < n && x <= n
    ensures x as real / n as real <= 1.0
    ensures x == n ==> x as real / n as real == 1.0
  {
    QuotientMonotone(x as real, n as real, n as real);
  }

  lemma ApartAtMostOne(range: seq<Value>, v: Value, w: Value)
    requires v in range && w in range
    ensures Apart(range, v, w) <= 1.0
  {
    if |range| > 1 {
      ShareAtMostOne(Abs(Position(range, v) - Position(range, w)), |range| - 1);
    }
  }

  lemma {:induction false} SumAtMostCount(t: Tuple, u: Tuple, ranges: Ranges)
    requires InProduct(t, ranges) && InProduct(u, ranges)
    ensures SumApart(t, u, ranges) <= |ranges| as real
  {
    if ranges != [] {
      var n := |ranges| - 1;
      SumAtMostCount(t[..n], u[..n], ranges[..n]);
      ApartAtMostOne(ranges[n], t[n], u[n]);
    }
  }

  /** No two tuples are farther apart than one. */
  lemma DistanceAtMostOne(t: Tuple, u: Tuple, ranges: Ranges)
    requires InProduct(t, ranges) && InProduct(u, ranges)
    ensures Distance(t, u, ranges) <= 1.0
  {
    SumAtMostCount(t, u, ranges);
    QuotientMonotone(SumApart(t, u, ranges), Count(ranges), Count(ranges));
  }

  /** The tuples of the first and of the last values of all ranges. */
  predicate Corners(t: Tuple, u: Tuple, ranges: Ranges) {
    && |t| == |u| == |ranges|
    && forall k :: 0 <= k < |ranges| ==> |ranges[k]| > 1 && t[k] == ranges[k][0] && u[k] == ranges[k][|ranges[k]| - 1]
  }

  lemma {:induction false} CornersSum(t: Tuple, u: Tuple, ranges: Ranges)
    requires ValidRanges(ranges) && Corners(t, u, ranges)
    ensures InProduct(t, ranges) && InProduct(u, ranges)
    ensures SumApart(t, u, ranges) == |ranges| as real
  {
    if ranges != [] {
      var n := |ranges| - 1;
      CornersSum(t[..n], u[..n], ranges[..n]);
      PositionIsUnique(ranges[n], 0);
      PositionIsUnique(ranges[n], |ranges[n]| - 1);
      ShareAtMostOne(|ranges[n]| - 1, |ranges[n]| - 1);
    }
  }

  /** The two corners are exactly that far apart, when every range has two values or more. */
  lemma CornersAreFarthest(t: Tuple, u: Tuple, ranges: Ranges)
    requires ValidRanges(ranges) && ranges != [] && Corners(t, u, ranges)
    ensures InProduct(t, ranges) && InProduct(u, ranges) && Distance(t, u, ranges) == 1.0
  {
    CornersSum(t, u, ranges);
    ShareAtMostOne(|ranges|, |ranges|);
  }
}
