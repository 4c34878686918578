/** Choosing the parameter tuples of a hypothesis: all of them when they fit, otherwise the forced
    ones and then, again and again, the sampled tuple farthest from everything chosen. */
module Variants {
  import opened ParameterSpace
  import opened Distances

  datatype Reason = Baseline | LowerBoundary | UpperBoundary | SpaceFilling

  datatype Pick = Pick(tuple: Tuple, reason: Reason)

  function Tuples(picks: seq<Pick>): (ts: seq<Tuple>)
    ensures |ts| == |picks| && forall k :: 0 <= k < |ts| ==> ts[k] == picks[k].tuple
  {
    seq(|picks|, k requires 0 <= k < |picks| => picks[k].tuple)
  }

  function Lower(ranges: Ranges): Tuple
    requires ValidRanges(ranges)
  {
    seq(|ranges|, k requires 0 <= k < |ranges| => ranges[k][0])
  }

  function Upper(ranges: Ranges): Tuple
    requires ValidRanges(ranges)
  {
    seq(|ranges|, k requires 0 <= k < |ranges| => ranges[k][|ranges[k]| - 1])
  }

  function AddNew(picks: seq<Pick>, t: Tuple, reason: Reason): seq<Pick> {
    if t in Tuples(picks) then picks else picks + [Pick(t, reason)]
  }

  /** Baseline, all-low and all-high, each once. */
  function Forced(ranges: Ranges, baseline: Tuple): seq<Pick>
    requires ValidRanges(ranges)
  {
    AddNew(AddNew([Pick(baseline, Baseline)], Lower(ranges), LowerBoundary), Upper(ranges), UpperBoundary)
  }

  /** The baseline first; the boundaries after it, each under its own reason, unless they were there. */
  lemma ForcedReasons(ranges: Ranges, baseline: Tuple)
    requires ValidRanges(ranges)
    ensures var low, high := Lower(ranges), Upper(ranges);
            Forced(ranges, baseline) ==
            [Pick(baseline, Baseline)] +
            (if low == baseline then [] else [Pick(low, LowerBoundary)]) +
            (if high == baseline || high == low then [] else [Pick(high, UpperBoundary)])
  {
    var low := Lower(ranges);
    assert Tuples([Pick(baseline, Baseline)]) == [baseline];
    assert Tuples([Pick(baseline, Baseline)] + [Pick(low, LowerBoundary)]) == [baseline, low];
  }

  /** The boundaries take the first, and the last, value of every range. */
  lemma BoundariesAreCorners(ranges: Ranges)
    requires ValidRanges(ranges) && forall k :: 0 <= k < |ranges| ==> |ranges[k]| > 1
    ensures Corners(Lower(ranges), Upper(ranges), ranges)
  {}

  datatype Proposal = Proposal(ranges: Ranges, baseline: Tuple, maxVariants: nat) {
    /** A validated proposal has room for the forced tuples. */
    predicate Valid() {
      && ValidRanges(ranges) && ranges != [] && InProduct(baseline, ranges)
      && 1 <= maxVariants <= 200
      && |Forced(ranges, baseline)| <= maxVariants
    }

    function PoolSize(): nat {
      var wanted := if maxVariants * 8 < 256 then 256 else maxVariants * 8;
      if Total(ranges) < wanted then Total(ranges) else wanted
    }

    /** What sampling without replacement can return, in any order. */
    predicate ValidSample(ranks: seq<nat>) {
      |ranks| == PoolSize() && Distinct(ranks) && forall k :: 0 <= k < |ranks| ==> ranks[k] < Total(ranges)
    }
  }

  /** The sample is everything, or at least 256 and at least eight for each wanted variant. */
  lemma PoolIsLarge(p: Proposal)
    ensures p.PoolSize() <= Total(p.ranges)
    ensures p.PoolSize() < Total(p.ranges) ==> p.PoolSize() >= 256 && p.PoolSize() >= 8 * p.maxVariants
    ensures p.PoolSize() < Total(p.ranges) ==> p.PoolSize() == 256 || p.PoolSize() == 8 * p.maxVariants
  {}

  predicate AllInProduct(ts: seq<Tuple>, ranges: Ranges) {
    forall k :: 0 <= k < |ts| ==> InProduct(ts[k], ranges)
  }

  lemma ForcedFacts(ranges: Ranges, baseline: Tuple)
    requires ValidRanges(ranges) && InProduct(baseline, ranges)
    ensures var ts := Tuples(Forced(ranges, baseline));
            && ts != [] && Distinct(ts) && AllInProduct(ts, ranges)
            && baseline in ts && Lower(ranges) in ts && Upper(ranges) in ts
            && Forced(ranges, baseline)[0] == Pick(baseline, Baseline)
  {
    AddNewFacts([Pick(baseline, Baseline)], Lower(ranges), LowerBoundary, ranges);
    AddNewFacts(AddNew([Pick(baseline, Baseline)], Lower(ranges), LowerBoundary), Upper(ranges), UpperBoundary, ranges);
    assert Tuples([Pick(baseline, Baseline)]) == [baseline];
  }

  lemma AddNewFacts(picks: seq<Pick>, t: Tuple, reason: Reason, ranges: Ranges)
    requires Distinct(Tuples(picks)) && AllInProduct(Tuples(picks), ranges) && InProduct(t, ranges)
    ensures var ts := Tuples(AddNew(picks, t, reason));
            && Distinct(ts) && AllInProduct(ts, ranges) && t in ts
            && forall x :: x in Tuples(picks) ==> x in ts
    ensures picks != [] ==> AddNew(picks, t, reason)[0] == picks[0]
  {
    if t !in Tuples(picks) {
      assert Tuples(picks + [Pick(t, reason)]) == Tuples(picks) + [t];
    }
  }

  // ----- Farthest point first -----

  function MinReal(a: real, b: real): real { if b < a then b else a }

  /** Distance from `x` to the nearest of `points`. */
  function MinDistance(x: Tuple, points: seq<Tuple>, ranges: Ranges): real
    requires points != [] && InProduct(x, ranges) && AllInProduct(points, ranges)
  {
    if |points| == 1 then Distance(x, points[0], ranges)
    else MinReal(MinDistance(x, points[..|points| - 1], ranges), Distance(x, points[|points| - 1], ranges))
  }

  lemma {:induction false} MinDistanceBounds(x: Tuple, points: seq<Tuple>, ranges: Ranges, k: nat)
    requires points != [] && InProduct(x, ranges) && AllInProduct(points, ranges) && k < |points|
    ensures MinDistance(x, points, ranges) <= Distance(x, points[k], ranges)
  {
    if k < |points| - 1 {
      MinDistanceBounds(x, points[..|points| - 1], ranges, k);
    }
  }

  lemma {:induction false} MinDistanceIsAttained(x: Tuple, points: seq<Tuple>, ranges: Ranges) returns (k: nat)
    requires points != [] && InProduct(x, ranges) && AllInProduct(points, ranges)
    ensures k < |points| && MinDistance(x, points, ranges) == Distance(x, points[k], ranges)
  {
    k := |points| - 1;
    if |points| > 1 && MinDistance(x, points, ranges) != Distance(x, points[k], ranges) {
      k := MinDistanceIsAttained(x, points[..|points| - 1], ranges);
    }
  }

  /** More points are no farther away. */
  lemma {:induction false} MinDistanceShrinks(x: Tuple, points: seq<Tuple>, n: nat, ranges: Ranges)
    requires 0 < n <= |points| && InProduct(x, ranges) && AllInProduct(points, ranges)
    ensures MinDistance(x, points, ranges) <= MinDistance(x, points[..n], ranges)
    decreases |points|
  {
    if n < |points| {
      MinDistanceShrinks(x, points[..|points| - 1], n, ranges);
      assert points[..|points| - 1][..n] == points[..n];
    } else {
      assert points[..n] == points;
    }
  }

  lemma MinDistanceSnoc(x: Tuple, points: seq<Tuple>, y: Tuple, ranges: Ranges)
    requires points != [] && InProduct(x, ranges) && AllInProduct(points, ranges) && InProduct(y, ranges)
    ensures MinDistance(x, points + [y], ranges) == MinReal(MinDistance(x, points, ranges), Distance(x, y, ranges))
  {
    assert (points + [y])[..|points|] == points;
  }

  /** The cached distances are the true ones. */
  predicate Cached(pool: seq<Tuple>, distances: seq<real>, chosen: seq<Tuple>, ranges: Ranges)
    requires chosen != [] && AllInProduct(chosen, ranges) && AllInProduct(pool, ranges)
  {
    |distances| == |pool| && forall i :: 0 <= i < |pool| ==> distances[i] == MinDistance(pool[i], chosen, ranges)
  }

  /** Distance of the pick with index `k` from everything chosen before it. */
  function Radius(forced: seq<Tuple>, picks: seq<Tuple>, k: nat, ranges: Ranges): real
    requires forced != [] && AllInProduct(forced, ranges) && AllInProduct(picks, ranges) && k < |picks|
  {
    MinDistance(picks[k], forced + picks[..k], ranges)
  }

  ghost predicate FarthestAt(forced: seq<Tuple>, picks: seq<Tuple>, leftover: seq<Tuple>, k: nat, ranges: Ranges)
    requires forced != [] && AllInProduct(forced, ranges) && AllInProduct(picks, ranges) &&
             AllInProduct(leftover, ranges)
    requires k < |picks|
  {
    forall x :: x in picks[k..] || x in leftover ==>
      InProduct(x, ranges) && MinDistance(x, forced + picks[..k], ranges) <= Radius(forced, picks, k, ranges)
  }

  /** Each pick was a farthest one of those remaining. */
  ghost predicate FarthestFirst(forced: seq<Tuple>, picks: seq<Tuple>, leftover: seq<Tuple>, ranges: Ranges)
    requires forced != [] && AllInProduct(forced, ranges) && AllInProduct(picks, ranges) &&
             AllInProduct(leftover, ranges)
  {
    forall k :: 0 <= k < |picks| ==> FarthestAt(forced, picks, leftover, k, ranges)
  }

  /** Pick distances never increase. */
  lemma RadiiShrink(forced: seq<Tuple>, picks: seq<Tuple>, leftover: seq<Tuple>, ranges: Ranges, k: nat, l: nat)
    requires forced != [] && AllInProduct(forced, ranges) && AllInProduct(picks, ranges) &&
             AllInProduct(leftover, ranges)
    requires FarthestFirst(forced, picks, leftover, ranges) && k <= l < |picks|
    ensures Radius(forced, picks, l, ranges) <= Radius(forced, picks, k, ranges)
  {
    assert FarthestAt(forced, picks, leftover, k, ranges);
    assert picks[k..][l - k] == picks[l];
    MinDistanceShrinks(picks[l], forced + picks[..l], |forced| + k, ranges);
    assert (forced + picks[..l])[..|forced| + k] == forced + picks[..k];
  }

  /** Everything left over is within the last pick distance of something chosen. */
  lemma LeftoverIsCovered(forced: seq<Tuple>, picks: seq<Tuple>, leftover: seq<Tuple>, ranges: Ranges, x: Tuple)
    requires forced != [] && AllInProduct(forced, ranges) && AllInProduct(picks, ranges) &&
             AllInProduct(leftover, ranges)
    requires FarthestFirst(forced, picks, leftover, ranges) && picks != [] && x in leftover
    ensures InProduct(x, ranges)
    ensures MinDistance(x, forced + picks, ranges) <= Radius(forced, picks, |picks| - 1, ranges)
  {
    var last := |picks| - 1;
    var i :| 0 <= i < |leftover| && leftover[i] == x;
    assert FarthestAt(forced, picks, leftover, last, ranges);
    var chosen, before := forced + picks, forced + picks[..last];
    assert chosen[..|before|] == before;
    MinDistanceShrinks(x, chosen, |before|, ranges);
  }

  /** A pick is at least the last pick distance away from everything chosen before it. */
  lemma PicksAreApart(forced: seq<Tuple>, picks: seq<Tuple>, leftover: seq<Tuple>, ranges: Ranges, j: nat, l: nat)
    requires forced != [] && AllInProduct(forced, ranges) && AllInProduct(picks, ranges) &&
             AllInProduct(leftover, ranges)
    requires FarthestFirst(forced, picks, leftover, ranges) && l < |picks| && j < |forced| + l
    ensures Distance(picks[l], (forced + picks)[j], ranges) >= Radius(forced, picks, |picks| - 1, ranges)
  {
    RadiiShrink(forced, picks, leftover, ranges, l, |picks| - 1);
    MinDistanceBounds(picks[l], forced + picks[..l], ranges, j);
    assert (forced + picks[..l])[j] == (forced + picks)[j];
  }

  method IndexOfGreatest(xs: seq<real>) returns (best: nat)
    requires xs != []
    ensures best < |xs| && (forall i :: 0 <= i < |xs| ==> xs[i] <= xs[best])
    ensures forall i :: 0 <= i < best ==> xs[i] < xs[best]
  {
    best := 0;
    for i := 1 to |xs|
      invariant best < i
      invariant forall j :: 0 <= j < i ==> xs[j] <= xs[best]
      invariant forall j :: 0 <= j < best ==> xs[j] < xs[best]
    {
      if xs[i] > xs[best] { best := i; }
    }
  }

  function Without<T>(xs: seq<T>, i: nat): seq<T>
    requires i < |xs|
  {
    xs[..i] + xs[i + 1..]
  }

  /** One more farthest pick. */
  lemma PickFarthest(forced: seq<Tuple>, picks: seq<Tuple>, pool: seq<Tuple>, distances: seq<real>, best: nat,
                     ranges: Ranges)
    requires forced != [] && AllInProduct(forced, ranges) && AllInProduct(picks, ranges) && AllInProduct(pool, ranges)
    requires FarthestFirst(forced, picks, pool, ranges) && Cached(pool, distances, forced + picks, ranges)
    requires best < |pool| && forall i :: 0 <= i < |pool| ==> distances[i] <= distances[best]
    ensures AllInProduct(picks + [pool[best]], ranges) && AllInProduct(Without(pool, best), ranges)
    ensures FarthestFirst(forced, picks + [pool[best]], Without(pool, best), ranges)
  {
    var more, rest := picks + [pool[best]], Without(pool, best);
    forall k | 0 <= k < |more| ensures FarthestAt(forced, more, rest, k, ranges) {
      assert more[..k] == picks[..k];
      forall x | x in more[k..] || x in rest
        ensures InProduct(x, ranges) && MinDistance(x, forced + more[..k], ranges) <= Radius(forced, more, k, ranges)
      {
        if k < |picks| {
          assert FarthestAt(forced, picks, pool, k, ranges);
          assert more[k..] == picks[k..] + [pool[best]];
          assert more[k] == picks[k];
          assert x in picks[k..] || x in pool;
        } else {
          assert picks[..k] == picks && more[k..] == [pool[best]];
          assert x in pool;
          var i :| 0 <= i < |pool| && pool[i] == x;
        }
      }
    }
  }

  method UpdateDistances(pool: seq<Tuple>, distances: seq<real>, ghost chosen: seq<Tuple>, best: Tuple, ranges: Ranges)
    returns (updated: seq<real>)
    requires chosen != [] && AllInProduct(chosen, ranges) && AllInProduct(pool, ranges) && InProduct(best, ranges)
    requires Cached(pool, distances, chosen, ranges)
    ensures Cached(pool, updated, chosen + [best], ranges)
  {
    updated := distances;
    for i := 0 to |pool|
      invariant |updated| == |pool|
      invariant forall j :: i <= j < |pool| ==> updated[j] == distances[j]
      invariant forall j :: 0 <= j < i ==> updated[j] == MinDistance(pool[j], chosen + [best], ranges)
    {
      MinDistanceSnoc(pool[i], chosen, best, ranges);
      var d := MeasureDistance(pool[i], best, ranges);
      updated := updated[i := MinReal(updated[i], d)];
    }
  }

  predicate Disjoint(xs: seq<Tuple>, ys: seq<Tuple>) {
    forall i :: 0 <= i < |xs| ==> xs[i] !in ys
  }

  lemma DistinctJoined(xs: seq<Tuple>, ys: seq<Tuple>)
    requires Distinct(xs) && Distinct(ys) && Disjoint(ys, xs)
    ensures Distinct(xs + ys)
  {
    forall i, j | 0 <= i < j < |xs + ys| ensures (xs + ys)[i] != (xs + ys)[j] {
      if i < |xs| <= j {
        assert (xs + ys)[j] == ys[j - |xs|] && xs[i] in xs;
      }
    }
  }

  lemma WithoutFacts(pool: seq<Tuple>, best: nat, chosen: seq<Tuple>)
    requires Distinct(pool) && Disjoint(pool, chosen) && best < |pool|
    ensures Distinct(Without(pool, best)) && Disjoint(Without(pool, best), chosen + [pool[best]])
  {
    var rest := Without(pool, best);
    forall i | 0 <= i < |rest| ensures rest[i] !in chosen + [pool[best]] {
      assert rest[i] == pool[if i < best then i else i + 1];
    }
  }

  /** The tuple taken out is new, and with it the rest is the whole pool. */
  lemma NewPoint(pool: seq<Tuple>, best: nat, forced: seq<Tuple>, picks: seq<Tuple>)
    requires best < |pool| && Disjoint(pool, forced + picks)
    ensures pool[best] !in forced && pool[best] !in picks
    ensures forall x :: x in pool <==> x == pool[best] || x in Without(pool, best)
  {
    assert pool == pool[..best] + [pool[best]] + pool[best + 1..];
    assert pool[best] !in forced + picks;
  }

  lemma CachedWithout(pool: seq<Tuple>, distances: seq<real>, best: nat, chosen: seq<Tuple>, ranges: Ranges)
    requires chosen != [] && AllInProduct(chosen, ranges) && AllInProduct(pool, ranges)
    requires Cached(pool, distances, chosen, ranges) && best < |pool|
    ensures AllInProduct(Without(pool, best), ranges)
    ensures Cached(Without(pool, best), Without(distances, best), chosen, ranges)
  {}

  /** The greedy loop with its cache of distances. */
  method TakeFarthest(ranges: Ranges, forced: seq<Tuple>, candidates: seq<Tuple>, count: nat)
    returns (picks: seq<Tuple>, leftover: seq<Tuple>)
    requires forced != [] && AllInProduct(forced, ranges) && AllInProduct(candidates, ranges)
    requires Distinct(candidates) && Disjoint(candidates, forced)
    ensures |picks| == (if count < |candidates| then count else |candidates|) && |leftover| == |candidates| - |picks|
    ensures AllInProduct(picks, ranges) && AllInProduct(leftover, ranges)
    ensures Distinct(picks) && Disjoint(picks, forced)
    ensures forall x :: x in candidates <==> x in picks || x in leftover
    ensures FarthestFirst(forced, picks, leftover, ranges)
  {
    picks, leftover := [], candidates;
    var distances := seq(|candidates|, i requires 0 <= i < |candidates| => MinDistance(candidates[i], forced, ranges));
    assert forced + [] == forced;
    while leftover != [] && |picks| < count
      invariant |picks| <= count && |picks| + |leftover| == |candidates|
      invariant AllInProduct(picks, ranges) && AllInProduct(leftover, ranges)
      invariant Cached(leftover, distances, forced + picks, ranges)
      invariant FarthestFirst(forced, picks, leftover, ranges)
      invariant Distinct(picks) && Distinct(leftover) && Disjoint(picks, forced) && Disjoint(leftover, forced + picks)
      invariant forall x :: x in candidates <==> x in picks || x in leftover
      decreases |leftover|
    {
      var best := IndexOfGreatest(distances);
      var point := leftover[best];
      PickFarthest(forced, picks, leftover, distances, best, ranges);
      WithoutFacts(leftover, best, forced + picks);
      NewPoint(leftover, best, forced, picks);
      var rest, others := Without(leftover, best), Without(distances, best);
      CachedWithout(leftover, distances, best, forced + picks, ranges);
      distances := UpdateDistances(rest, others, forced + picks, point, ranges);
      assert forced + picks + [point] == forced + (picks + [point]);
      picks, leftover := picks + [point], rest;
    }
  }

  // ----- Selection -----

  /** The tuples of `xs` that are not among `ys`. */
  function Exclude(xs: seq<Tuple>, ys: seq<Tuple>): seq<Tuple> {
    if xs == [] then []
    else Exclude(xs[..|xs| - 1], ys) + (if xs[|xs| - 1] in ys then [] else [xs[|xs| - 1]])
  }

  lemma {:induction false} ExcludeFacts(xs: seq<Tuple>, ys: seq<Tuple>)
    requires Distinct(xs)
    ensures forall x :: x in Exclude(xs, ys) <==> x in xs && x !in ys
    ensures Distinct(Exclude(xs, ys))
  {
    if xs != [] {
      var front, last := xs[..|xs| - 1], xs[|xs| - 1];
      ExcludeFacts(front, ys);
      assert xs == front + [last];
      var kept := Exclude(front, ys);
      forall i | 0 <= i < |kept| ensures kept[i] != last {
        assert kept[i] in front;
      }
    }
  }

  /** In rank order. */
  predicate Ranked(xs: seq<Tuple>, ranges: Ranges)
    requires ValidRanges(ranges) && AllInProduct(xs, ranges)
  {
    forall i, j :: 0 <= i < j < |xs| ==> RankOf(xs[i], ranges) < RankOf(xs[j], ranges)
  }

  /** Excluding keeps the order. */
  lemma {:induction false} ExcludeStaysRanked(xs: seq<Tuple>, ys: seq<Tuple>, ranges: Ranges)
    requires ValidRanges(ranges) && AllInProduct(xs, ranges) && Ranked(xs, ranges)
    ensures AllInProduct(Exclude(xs, ys), ranges) && Ranked(Exclude(xs, ys), ranges)
    ensures forall k :: 0 <= k < |Exclude(xs, ys)| ==> Exclude(xs, ys)[k] in xs
  {
    if xs != [] {
      var front, last := xs[..|xs| - 1], xs[|xs| - 1];
      ExcludeStaysRanked(front, ys, ranges);
      assert xs == front + [last];
      var kept := Exclude(front, ys);
      forall k | 0 <= k < |kept| ensures RankOf(kept[k], ranges) < RankOf(last, ranges) {
        var i :| 0 <= i < |front| && front[i] == kept[k];
        assert xs[i] == front[i];
      }
    }
  }

  function Members(xs: seq<Tuple>): set<Tuple> { set x | x in xs }

  lemma {:induction false} DistinctSize(xs: seq<Tuple>)
    requires Distinct(xs)
    ensures |Members(xs)| == |xs|
  {
    if xs != [] {
      var front, last := xs[..|xs| - 1], xs[|xs| - 1];
      DistinctSize(front);
      assert xs == front + [last];
      assert Members(xs) == Members(front) + {last};
    }
  }

  /** Excluding distinct tuples takes away no more than their number, and exactly that when all of
      them occur. */
  lemma ExcludeSize(xs: seq<Tuple>, ys: seq<Tuple>)
    requires Distinct(xs) && Distinct(ys)
    ensures |Exclude(xs, ys)| >= |xs| - |ys|
    ensures (forall y :: y in ys ==> y in xs) ==> |Exclude(xs, ys)| == |xs| - |ys|
  {
    ExcludeFacts(xs, ys);
    DistinctSize(xs);
    DistinctSize(ys);
    DistinctSize(Exclude(xs, ys));
    assert Members(Exclude(xs, ys)) == Members(xs) - Members(ys);
    SetSizes(Members(xs), Members(ys));
  }

  lemma SetSizes<T>(a: set<T>, b: set<T>)
    ensures |a - b| >= |a| - |b|
    ensures b <= a ==> |a - b| == |a| - |b|
  {
    assert a == (a - b) + (a * b);
    assert b == (a * b) + (b - a);
    if b <= a {
      assert a * b == b;
    }
  }

  function Filled(ts: seq<Tuple>): (picks: seq<Pick>)
    ensures Tuples(picks) == ts && forall k :: 0 <= k < |picks| ==> picks[k].reason == SpaceFilling
  {
    seq(|ts|, k requires 0 <= k < |ts| => Pick(ts[k], SpaceFilling))
  }

  method TuplesOfRanks(ranges: Ranges, ranks: seq<nat>) returns (ts: seq<Tuple>)
    requires ValidRanges(ranges) && Distinct(ranks) && forall k :: 0 <= k < |ranks| ==> ranks[k] < Total(ranges)
    ensures |ts| == |ranks| && AllInProduct(ts, ranges) && Distinct(ts)
    ensures forall k :: 0 <= k < |ts| ==> ts[k] == TupleAt(ranks[k], ranges)
  {
    ts := [];
    for k := 0 to |ranks|
      invariant |ts| == k && AllInProduct(ts, ranges)
      invariant forall j :: 0 <= j < k ==> ts[j] == TupleAt(ranks[j], ranges)
    {
      TupleThenRank(ranks[k], ranges);
      var t := TupleFromRank(ranks[k], ranges);
      ts := ts + [t];
    }
    forall i, j | 0 <= i < j < |ts| ensures ts[i] != ts[j] {
      TupleThenRank(ranks[i], ranges);
      TupleThenRank(ranks[j], ranges);
    }
  }

  /** What every selection satisfies: the wanted number of distinct tuples of the product, the
      forced ones first. */
  ghost predicate Selection(p: Proposal, selected: seq<Pick>)
    requires p.Valid()
  {
    var forced := Forced(p.ranges, p.baseline);
    && |selected| == (if Total(p.ranges) <= p.maxVariants then Total(p.ranges) else p.maxVariants)
    && Distinct(Tuples(selected)) && AllInProduct(Tuples(selected), p.ranges)
    && |forced| <= |selected| && selected[..|forced|] == forced
    && (forall k :: |forced| <= k < |selected| ==> selected[k].reason == SpaceFilling)
  }

  lemma SelectionHolds(p: Proposal, others: seq<Tuple>)
    requires p.Valid() && AllInProduct(others, p.ranges) && Distinct(others)
    requires Disjoint(others, Tuples(Forced(p.ranges, p.baseline)))
    requires |Forced(p.ranges, p.baseline)| + |others| ==
             if Total(p.ranges) <= p.maxVariants then Total(p.ranges) else p.maxVariants
    ensures Selection(p, Forced(p.ranges, p.baseline) + Filled(others))
  {
    var forced := Forced(p.ranges, p.baseline);
    var selected := forced + Filled(others);
    ForcedFacts(p.ranges, p.baseline);
    assert Tuples(selected) == Tuples(forced) + others;
    DistinctJoined(Tuples(forced), others);
  }

  /** Every selection contains the baseline and both boundaries. */
  lemma SelectionHasForced(p: Proposal, selected: seq<Pick>)
    requires p.Valid() && Selection(p, selected)
    ensures var ts := Tuples(selected); p.baseline in ts && Lower(p.ranges) in ts && Upper(p.ranges) in ts
  {
    var forced := Forced(p.ranges, p.baseline);
    ForcedFacts(p.ranges, p.baseline);
    forall x | x in Tuples(forced) ensures x in Tuples(selected) {
      var k :| 0 <= k < |forced| && forced[k].tuple == x;
      assert selected[k] == forced[k];
      assert Tuples(selected)[k] == x;
    }
  }

  lemma ForcedAmongAll(ranges: Ranges, baseline: Tuple, all: seq<Tuple>)
    requires ValidRanges(ranges) && InProduct(baseline, ranges) && |all| == Total(ranges)
    requires forall k :: 0 <= k < |all| ==> all[k] == TupleAt(k, ranges)
    ensures forall t :: InProduct(t, ranges) ==> t in all
    ensures forall t :: t in Tuples(Forced(ranges, baseline)) ==> t in all
  {
    forall t | InProduct(t, ranges) ensures t in all {
      RankThenTuple(t, ranges);
      assert all[RankOf(t, ranges)] == t;
    }
    ForcedFacts(ranges, baseline);
    var forced := Tuples(Forced(ranges, baseline));
    forall t | t in forced ensures t in all {
      var k :| 0 <= k < |forced| && forced[k] == t;
    }
  }

  lemma OthersOfAll(p: Proposal, all: seq<Tuple>)
    requires p.Valid() && Total(p.ranges) <= p.maxVariants
    requires |all| == Total(p.ranges) && AllInProduct(all, p.ranges) && Distinct(all)
    requires forall k :: 0 <= k < |all| ==> all[k] == TupleAt(k, p.ranges)
    ensures Selection(p, Forced(p.ranges, p.baseline) + Filled(Exclude(all, Tuples(Forced(p.ranges, p.baseline)))))
  {
    var forced := Tuples(Forced(p.ranges, p.baseline));
    ForcedFacts(p.ranges, p.baseline);
    ForcedAmongAll(p.ranges, p.baseline, all);
    ExcludeFacts(all, forced);
    ExcludeSize(all, forced);
    ExcludedAreValid(all, Exclude(all, forced), p.ranges, forced);
    SelectionHolds(p, Exclude(all, forced));
  }

  lemma AllAreSelected(forced: seq<Pick>, all: seq<Tuple>, selected: seq<Pick>, t: Tuple)
    requires t in all && Distinct(all) && selected == forced + Filled(Exclude(all, Tuples(forced)))
    ensures t in Tuples(selected)
  {
    var others := Exclude(all, Tuples(forced));
    ExcludeFacts(all, Tuples(forced));
    assert Tuples(selected) == Tuples(forced) + others;
    if t !in Tuples(forced) {
      assert t in others;
    }
  }

  /** After the forced tuples, the others come by rank. */
  ghost predicate OthersRanked(p: Proposal, selected: seq<Pick>)
    requires p.Valid()
  {
    var n := |Forced(p.ranges, p.baseline)|;
    n <= |selected| && AllInProduct(Tuples(selected)[n..], p.ranges) && Ranked(Tuples(selected)[n..], p.ranges)
  }

  lemma AllByRank(p: Proposal, all: seq<Tuple>, forced: seq<Tuple>)
    requires p.Valid() && AllInProduct(all, p.ranges) && |all| == Total(p.ranges)
    requires forall k :: 0 <= k < |all| ==> all[k] == TupleAt(k, p.ranges)
    ensures AllInProduct(Exclude(all, forced), p.ranges) && Ranked(Exclude(all, forced), p.ranges)
  {
    forall k | 0 <= k < |all| ensures RankOf(all[k], p.ranges) == k {
      TupleThenRank(k, p.ranges);
    }
    ExcludeStaysRanked(all, forced, p.ranges);
  }

  /** Forced tuples first, then the others by rank. */
  method SelectAll(p: Proposal) returns (selected: seq<Pick>)
    requires p.Valid() && Total(p.ranges) <= p.maxVariants
    ensures Selection(p, selected)
    ensures forall t :: InProduct(t, p.ranges) ==> t in Tuples(selected)
    ensures OthersRanked(p, selected)
  {
    var forced := Forced(p.ranges, p.baseline);
    var ranks: seq<nat> := seq(Total(p.ranges), k => k);
    var all := TuplesOfRanks(p.ranges, ranks);
    OthersOfAll(p, all);
    selected := forced + Filled(Exclude(all, Tuples(forced)));
    AllByRank(p, all, Tuples(forced));
    assert Tuples(selected)[|forced|..] == Exclude(all, Tuples(forced));
    forall t | InProduct(t, p.ranges) ensures t in Tuples(selected) {
      RankThenTuple(t, p.ranges);
      assert all[RankOf(t, p.ranges)] == t;
      AllAreSelected(forced, all, selected, t);
    }
  }

  /** Forced tuples first, then farthest first among the sample. */
  method SelectSampled(p: Proposal, sample: seq<nat>) returns (selected: seq<Pick>, leftover: seq<Tuple>)
    requires p.Valid() && Total(p.ranges) > p.maxVariants && p.ValidSample(sample)
    requires |Forced(p.ranges, p.baseline)| < p.maxVariants
    ensures Selection(p, selected)
    ensures WellSpread(p, selected, leftover) && AllConsidered(p, sample, selected, leftover)
  {
    var forced := Forced(p.ranges, p.baseline);
    var candidates := TuplesOfRanks(p.ranges, sample);
    var pool := Exclude(candidates, Tuples(forced));
    PoolFacts(p, candidates, pool);
    var picks;
    picks, leftover := TakeFarthest(p.ranges, Tuples(forced), pool, p.maxVariants - |forced|);
    SelectionHolds(p, picks);
    selected := forced + Filled(picks);
    SpreadHolds(p, selected, picks, leftover);
    forall k | 0 <= k < |sample| ensures Considered(TupleAt(sample[k], p.ranges), selected, leftover) {
      InForcedOrPool(candidates, Tuples(forced), k);
      IsConsidered(Tuples(forced), pool, picks, leftover, candidates[k]);
      assert Tuples(selected) == Tuples(forced) + picks;
    }
  }

  lemma PoolFacts(p: Proposal, candidates: seq<Tuple>, pool: seq<Tuple>)
    requires p.Valid() && AllInProduct(candidates, p.ranges) && Distinct(candidates)
    requires pool == Exclude(candidates, Tuples(Forced(p.ranges, p.baseline)))
    ensures var forced := Tuples(Forced(p.ranges, p.baseline));
            && forced != [] && AllInProduct(forced, p.ranges)
            && Distinct(pool) && AllInProduct(pool, p.ranges) && Disjoint(pool, forced)
            && |pool| >= |candidates| - |forced|
  {
    var forced := Tuples(Forced(p.ranges, p.baseline));
    ForcedFacts(p.ranges, p.baseline);
    ExcludeFacts(candidates, forced);
    ExcludeSize(candidates, forced);
    ExcludedAreValid(candidates, pool, p.ranges, forced);
  }

  lemma SpreadHolds(p: Proposal, selected: seq<Pick>, picks: seq<Tuple>, leftover: seq<Tuple>)
    requires p.Valid() && selected == Forced(p.ranges, p.baseline) + Filled(picks)
    requires AllInProduct(picks, p.ranges) && AllInProduct(leftover, p.ranges)
    requires var forced := Tuples(Forced(p.ranges, p.baseline));
             forced != [] && AllInProduct(forced, p.ranges) && FarthestFirst(forced, picks, leftover, p.ranges)
    ensures WellSpread(p, selected, leftover)
  {
    var forced := Tuples(Forced(p.ranges, p.baseline));
    assert Tuples(selected) == forced + picks;
    assert Tuples(selected)[|forced|..] == picks;
  }

  lemma InForcedOrPool(candidates: seq<Tuple>, forced: seq<Tuple>, k: nat)
    requires k < |candidates| && Distinct(candidates)
    ensures candidates[k] in forced || candidates[k] in Exclude(candidates, forced)
  {
    ExcludeFacts(candidates, forced);
    assert candidates[k] in candidates;
  }

  lemma IsConsidered(forced: seq<Tuple>, pool: seq<Tuple>, picks: seq<Tuple>, leftover: seq<Tuple>, x: Tuple)
    requires x in forced || x in pool
    requires forall y :: y in pool <==> y in picks || y in leftover
    ensures x in forced + picks || x in leftover
  {}

  /** After the forced tuples, each selected one was a farthest one. */
  ghost predicate WellSpread(p: Proposal, selected: seq<Pick>, leftover: seq<Tuple>)
    requires p.Valid()
  {
    var forced := Tuples(Forced(p.ranges, p.baseline));
    && forced != [] && AllInProduct(forced, p.ranges) && AllInProduct(leftover, p.ranges)
    && |forced| <= |selected| && AllInProduct(Tuples(selected)[|forced|..], p.ranges)
    && FarthestFirst(forced, Tuples(selected)[|forced|..], leftover, p.ranges)
  }

  predicate Considered(t: Tuple, selected: seq<Pick>, leftover: seq<Tuple>) {
    t in Tuples(selected) || t in leftover
  }

  /** Every sampled tuple was chosen or is left over. */
  predicate AllConsidered(p: Proposal, sample: seq<nat>, selected: seq<Pick>, leftover: seq<Tuple>)
    requires p.Valid()
  {
    forall k :: 0 <= k < |sample| ==> Considered(TupleAt(sample[k], p.ranges), selected, leftover)
  }

  /** Exactly the wanted number of distinct tuples, with the forced ones; all tuples when they fit,
      otherwise farthest first among the sample. */
  method SelectTuples(p: Proposal, sample: seq<nat>) returns (selected: seq<Pick>, leftover: seq<Tuple>)
    requires p.Valid()
    requires Total(p.ranges) > p.maxVariants ==> p.ValidSample(sample)
    ensures Selection(p, selected)
    ensures Total(p.ranges) <= p.maxVariants ==> forall t :: InProduct(t, p.ranges) ==> t in Tuples(selected)
    ensures Total(p.ranges) <= p.maxVariants ==> OthersRanked(p, selected)
    ensures Total(p.ranges) > p.maxVariants ==> WellSpread(p, selected, leftover)
    ensures |Forced(p.ranges, p.baseline)| < p.maxVariants < Total(p.ranges) ==>
            AllConsidered(p, sample, selected, leftover)
  {
    leftover := [];
    if Total(p.ranges) <= p.maxVariants {
      selected := SelectAll(p);
    } else if |Forced(p.ranges, p.baseline)| == p.maxVariants {
      ForcedFacts(p.ranges, p.baseline);
      SelectionHolds(p, []);
      selected := Forced(p.ranges, p.baseline);
      assert selected + Filled([]) == selected;
    } else {
      selected, leftover := SelectSampled(p, sample);
    }
  }

  lemma ExcludedAreValid(xs: seq<Tuple>, kept: seq<Tuple>, ranges: Ranges, points: seq<Tuple>)
    requires AllInProduct(xs, ranges) && forall x :: x in kept <==> x in xs && x !in points
    ensures AllInProduct(kept, ranges) && Disjoint(kept, points)
  {
    forall k | 0 <= k < |kept| ensures InProduct(kept[k], ranges) && kept[k] !in points {
      assert kept[k] in kept;
      var i :| 0 <= i < |xs| && xs[i] == kept[k];
    }
  }
}
