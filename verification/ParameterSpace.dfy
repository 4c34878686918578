/** The product of the parameter ranges of a hypothesis: its enumeration by rank and the distance
    between two of its tuples. */
module ParameterSpace {
  import opened Division

  datatype Value = Number(value: real) | Text(text: string)

  type Tuple = seq<Value>

  /** The values of each parameter, smallest first. */
  type Ranges = seq<seq<Value>>

  predicate Distinct<T(==)>(xs: seq<T>) {
    forall i, j :: 0 <= i < j < |xs| ==> xs[i] != xs[j]
  }

  predicate ValidRanges(ranges: Ranges) {
    forall k :: 0 <= k < |ranges| ==> ranges[k] != [] && Distinct(ranges[k])
  }

  predicate InProduct(t: Tuple, ranges: Ranges) {
    |t| == |ranges| && forall k :: 0 <= k < |t| ==> t[k] in ranges[k]
  }

  function Total(ranges: Ranges): nat {
    if ranges == [] then 1 else Total(ranges[..|ranges| - 1]) * |ranges[|ranges| - 1]|
  }

  lemma ProductBounds(high: int, n: nat, low: nat, total: nat)
    requires 0 <= high < total && low < n
    ensures 0 <= high * n + low < total * n
  {
    assert (high + 1) * n <= total * n;
  }

  /** The position of a value in its range. */
  function Position(range: seq<Value>, v: Value): (p: nat)
    requires v in range
    ensures p < |range| && range[p] == v
  {
    if range[0] == v then 0 else Position(range[1..], v) + 1
  }

  lemma PositionIsUnique(range: seq<Value>, p: nat)
    requires Distinct(range) && p < |range|
    ensures Position(range, range[p]) == p
  {}

  /** The tuple of a rank: the last parameter turns fastest. */
  function TupleAt(rank: nat, ranges: Ranges): Tuple
    requires ValidRanges(ranges)
    decreases |ranges|
  {
    if ranges == [] then []
    else
      var last := ranges[|ranges| - 1];
      TupleAt(Quotient(rank, |last|), ranges[..|ranges| - 1]) + [last[Remainder(rank, |last|)]]
  }

  /** The rank of a tuple. */
  function RankOf(t: Tuple, ranges: Ranges): nat
    requires InProduct(t, ranges)
  {
    if ranges == [] then 0
    else
      var n := |ranges| - 1;
      RankOf(t[..n], ranges[..n]) * |ranges[n]| + Position(ranges[n], t[n])
  }

  /** Every rank below the total gives a tuple of the product, and gives it back. */
  lemma {:induction false} TupleThenRank(rank: nat, ranges: Ranges)
    requires ValidRanges(ranges) && rank < Total(ranges)
    ensures InProduct(TupleAt(rank, ranges), ranges)
    ensures RankOf(TupleAt(rank, ranges), ranges) == rank
    decreases |ranges|
  {
    if ranges != [] {
      var n := |ranges| - 1;
      QuotientBelow(rank, |ranges[n]|, Total(ranges[..n]));
      TupleThenRank(Quotient(rank, |ranges[n]|), ranges[..n]);
      PositionIsUnique(ranges[n], Remainder(rank, |ranges[n]|));
      assert TupleAt(rank, ranges)[..n] == TupleAt(Quotient(rank, |ranges[n]|), ranges[..n]);
    }
  }

  /** Every tuple of the product has a rank below the total, and comes back from it. */
  lemma {:induction false} RankThenTuple(t: Tuple, ranges: Ranges)
    requires ValidRanges(ranges) && InProduct(t, ranges)
    ensures RankOf(t, ranges) < Total(ranges)
    ensures TupleAt(RankOf(t, ranges), ranges) == t
  {
    if ranges != [] {
      var n := |ranges| - 1;
      var high, low := RankOf(t[..n], ranges[..n]), Position(ranges[n], t[n]);
      RankThenTuple(t[..n], ranges[..n]);
      ProductBounds(high, |ranges[n]|, low, Total(ranges[..n]));
      DivModOf(high, |ranges[n]|, low);
      assert t == t[..n] + [t[n]];
    }
  }

  /** The rank is taken apart from the last parameter to the first. */
  method TupleFromRank(rank: nat, ranges: Ranges) returns (t: Tuple)
    requires ValidRanges(ranges)
    ensures t == TupleAt(rank, ranges)
  {
    var coordinates: Tuple := seq(|ranges|, k => Text(""));
    var remainder: nat := rank;
    var index := |ranges|;
    assert ranges[..index] == ranges && coordinates[index..] == [];
    while index > 0
      invariant 0 <= index <= |ranges| == |coordinates|
      invariant TupleAt(rank, ranges) == TupleAt(remainder, ranges[..index]) + coordinates[index..]
    {
      index := index - 1;
      var options := ranges[index];
      assert ranges[..index + 1][..index] == ranges[..index];
      ghost var before := coordinates;
      var optionIndex := Remainder(remainder, |options|);
      coordinates := coordinates[index := options[optionIndex]];
      assert coordinates[index..] == [options[optionIndex]] + before[index + 1..];
      remainder := Quotient(remainder, |options|);
    }
    assert coordinates[0..] == coordinates;
    return coordinates;
  }

  // ----- Rank order is lexicographic order -----

  /** `t` comes before `u`: at the first place where they differ, its value comes first. */
  predicate Before(t: Tuple, u: Tuple, ranges: Ranges)
    requires InProduct(t, ranges) && InProduct(u, ranges)
  {
    exists k :: 0 <= k < |ranges| && t[..k] == u[..k] && Position(ranges[k], t[k]) < Position(ranges[k], u[k])
  }

  lemma {:induction false} RankIsLexicographic(t: Tuple, u: Tuple, ranges: Ranges)
    requires ValidRanges(ranges) && InProduct(t, ranges) && InProduct(u, ranges)
    ensures RankOf(t, ranges) < RankOf(u, ranges) <==> Before(t, u, ranges)
  {
    if ranges != [] {
      var n := |ranges| - 1;
      var front := ranges[..n];
      RankIsLexicographic(t[..n], u[..n], front);
      RankThenTuple(t[..n], front);
      RankThenTuple(u[..n], front);
      var a, b := RankOf(t[..n], front), RankOf(u[..n], front);
      CompareMixed(a, b, |ranges[n]|, Position(ranges[n], t[n]), Position(ranges[n], u[n]));
      BeforeByLast(t, u, ranges);
    }
  }

  lemma BeforeByLast(t: Tuple, u: Tuple, ranges: Ranges)
    requires InProduct(t, ranges) && InProduct(u, ranges) && ranges != []
    ensures var n := |ranges| - 1;
            Before(t, u, ranges) <==>
            || Before(t[..n], u[..n], ranges[..n])
            || (t[..n] == u[..n] && Position(ranges[n], t[n]) < Position(ranges[n], u[n]))
  {
    var n := |ranges| - 1;
    if k :| 0 <= k < n && t[..n][..k] == u[..n][..k] &&
            Position(ranges[..n][k], t[..n][k]) < Position(ranges[..n][k], u[..n][k]) {
      assert t[..k] == t[..n][..k] && u[..k] == u[..n][..k];
    }
    if k :| 0 <= k < |ranges| && t[..k] == u[..k] && Position(ranges[k], t[k]) < Position(ranges[k], u[k]) {
      if k < n {
        assert t[..n][..k] == t[..k] && u[..n][..k] == u[..k];
        assert ranges[..n][k] == ranges[k] && t[..n][k] == t[k] && u[..n][k] == u[k];
      }
    }
  }

  // ----- Distance -----

  function Abs(x: int): nat { if x < 0 then -x else x }

  /** How far apart two values are, as a share of their range. */
  function Apart(range: seq<Value>, v: Value, w: Value): real
    requires v in range && w in range
  {
    if |range| <= 1 then 0.0 else Abs(Position(range, v) - Position(range, w)) as real / (|range| - 1) as real
  }

  function SumApart(t: Tuple, u: Tuple, ranges: Ranges): real
    requires InProduct(t, ranges) && InProduct(u, ranges)
  {
    if ranges == [] then 0.0
    else
      var n := |ranges| - 1;
      SumApart(t[..n], u[..n], ranges[..n]) + Apart(ranges[n], t[n], u[n])
  }

  function Distance(t: Tuple, u: Tuple, ranges: Ranges): real
    requires InProduct(t, ranges) && InProduct(u, ranges)
  {
    SumApart(t, u, ranges) / (if |ranges| > 1 then |ranges| else 1) as real
  }

  /** The mean of the distances of the coordinates, added up from the first. */
  method MeasureDistance(t: Tuple, u: Tuple, ranges: Ranges) returns (d: real)
    requires InProduct(t, ranges) && InProduct(u, ranges)
    ensures d == Distance(t, u, ranges)
  {
    var total := 0.0;
    for k := 0 to |ranges|
      invariant total == SumApart(t[..k], u[..k], ranges[..k])
    {
      assert t[..k + 1][..k] == t[..k] && u[..k + 1][..k] == u[..k] && ranges[..k + 1][..k] == ranges[..k];
      if |ranges[k]| != 1 {
        total := total + Abs(Position(ranges[k], t[k]) - Position(ranges[k], u[k])) as real / (|ranges[k]| - 1) as real;
      }
    }
    assert t[..|t|] == t && u[..|u|] == u && ranges[..|ranges|] == ranges;
    return total / (if |ranges| > 1 then |ranges| else 1) as real;
  }

  lemma QuotientMonotone(a: real, b: real, c: real)
    requires a <= b && c > 0.0
    ensures a / c <= b / c
  {
    assert b / c - a / c == (b - a) / c;
  }

  lemma RatioTriangle(x: nat, y: nat, z: nat, n: real)
    requires x <= y + z && n > 0.0
    ensures x as real / n <= y as real / n + z as real / n
  {
    QuotientMonotone(x as real, (y + z) as real, n);
    assert (y + z) as real / n == y as real / n + z as real / n;
  }

  lemma RatioZero(x: nat, n: real)
    requires n > 0.0
    ensures x as real / n >= 0.0 && (x as real / n == 0.0 <==> x == 0)
  {
    assert x as real / n * n == x as real;
    QuotientMonotone(0.0, x as real, n);
  }

  lemma ApartIsMetric(range: seq<Value>, v: Value, w: Value, x: Value)
    requires v in range && w in range && x in range
    ensures Apart(range, v, w) == Apart(range, w, v) >= 0.0
    ensures Apart(range, v, w) == 0.0 <==> v == w
    ensures Apart(range, v, x) <= Apart(range, v, w) + Apart(range, w, x)
  {
    if |range| > 1 {
      var n := (|range| - 1) as real;
      var a: int, b: int, c: int := Position(range, v), Position(range, w), Position(range, x);
      RatioTriangle(Abs(a - c), Abs(a - b), Abs(b - c), n);
      RatioZero(Abs(a - b), n);
    } else {
      var i :| 0 <= i < |range| && range[i] == v;
      var j :| 0 <= j < |range| && range[j] == w;
    }
  }

  lemma {:induction false} SumApartIsMetric(t: Tuple, u: Tuple, w: Tuple, ranges: Ranges)
    requires InProduct(t, ranges) && InProduct(u, ranges) && InProduct(w, ranges)
    ensures SumApart(t, u, ranges) == SumApart(u, t, ranges) >= 0.0
    ensures SumApart(t, u, ranges) == 0.0 <==> t == u
    ensures SumApart(t, w, ranges) <= SumApart(t, u, ranges) + SumApart(u, w, ranges)
  {
    if ranges != [] {
      var n := |ranges| - 1;
      SumApartIsMetric(t[..n], u[..n], w[..n], ranges[..n]);
      ApartIsMetric(ranges[n], t[n], u[n], w[n]);
      assert t == t[..n] + [t[n]] && u == u[..n] + [u[n]];
    }
  }

  /** The distance is a metric on the product. */
  lemma DistanceIsMetric(t: Tuple, u: Tuple, w: Tuple, ranges: Ranges)
    requires InProduct(t, ranges) && InProduct(u, ranges) && InProduct(w, ranges)
    ensures Distance(t, u, ranges) == Distance(u, t, ranges) >= 0.0
    ensures Distance(t, u, ranges) == 0.0 <==> t == u
    ensures Distance(t, w, ranges) <= Distance(t, u, ranges) + Distance(u, w, ranges)
  {
    SumApartIsMetric(t, u, w, ranges);
    var n := (if |ranges| > 1 then |ranges| else 1) as real;
    MeanIsMetric(SumApart(t, w, ranges), SumApart(t, u, ranges), SumApart(u, w, ranges), n);
  }

  lemma MeanIsMetric(x: real, y: real, z: real, n: real)
    requires n > 0.0 && y >= 0.0 && x <= y + z
    ensures y / n >= 0.0 && (y / n == 0.0 <==> y == 0.0)
    ensures x / n <= y / n + z / n
  {
    QuotientMonotone(x, y + z, n);
    QuotientMonotone(0.0, y, n);
    assert (y + z) / n == y / n + z / n;
    assert y / n * n == y;
  }
}
