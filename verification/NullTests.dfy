/** The nearest-rank threshold and the verdict of the null tests. */
module NullTests {
  import opened Wrappers
  import opened NullPlan
  import opened NullScoring
  import opened Counting

  // ----- Nearest rank -----

  predicate Ascending(xs: seq<real>) {
    forall a, b :: 0 <= a < b < |xs| ==> xs[a] <= xs[b]
  }

  function InsertReal(xs: seq<real>, x: real): seq<real> {
    if xs == [] || xs[|xs| - 1] <= x then xs + [x] else InsertReal(xs[..|xs| - 1], x) + [xs[|xs| - 1]]
  }

  function SortReals(xs: seq<real>): seq<real> {
    if xs == [] then [] else InsertReal(SortReals(xs[..|xs| - 1]), xs[|xs| - 1])
  }

  /** How many values lie strictly below `v`, and how many at or below it. */
  function StrictlyBelow(xs: seq<real>, v: real): nat {
    if xs == [] then 0 else StrictlyBelow(xs[..|xs| - 1], v) + (if xs[|xs| - 1] < v then 1 else 0)
  }

  function AtOrBelow(xs: seq<real>, v: real): nat {
    if xs == [] then 0 else AtOrBelow(xs[..|xs| - 1], v) + (if xs[|xs| - 1] <= v then 1 else 0)
  }

  lemma {:induction false} BelowAreCounted(xs: seq<real>, v: real)
    ensures StrictlyBelow(xs, v) == |Chosen(|xs|, a => 0 <= a < |xs| && xs[a] < v)|
    ensures AtOrBelow(xs, v) == |Chosen(|xs|, a => 0 <= a < |xs| && xs[a] <= v)|
  {
    if xs == [] {
      ChosenNone(a => 0 <= a < |xs| && xs[a] < v);
      ChosenNone(a => 0 <= a < |xs| && xs[a] <= v);
    } else {
      var n := |xs| - 1;
      var front := xs[..n];
      BelowAreCounted(front, v);
      ChosenNext(n, |xs|, a => 0 <= a < |front| && front[a] < v, a => 0 <= a < |xs| && xs[a] < v);
      ChosenNext(n, |xs|, a => 0 <= a < |front| && front[a] <= v, a => 0 <= a < |xs| && xs[a] <= v);
    }
  }

  lemma {:induction false} InsertRealCounts(xs: seq<real>, x: real, v: real)
    ensures |InsertReal(xs, x)| == |xs| + 1
    ensures StrictlyBelow(InsertReal(xs, x), v) == StrictlyBelow(xs, v) + (if x < v then 1 else 0)
    ensures AtOrBelow(InsertReal(xs, x), v) == AtOrBelow(xs, v) + (if x <= v then 1 else 0)
  {
    if xs == [] || xs[|xs| - 1] <= x {
      assert (xs + [x])[..|xs|] == xs;
    } else {
      var r := InsertReal(xs[..|xs| - 1], x);
      InsertRealCounts(xs[..|xs| - 1], x, v);
      assert (r + [xs[|xs| - 1]])[..|r|] == r;
    }
  }

  predicate AllAtMost(xs: seq<real>, bound: real) {
    forall a :: 0 <= a < |xs| ==> xs[a] <= bound
  }

  lemma {:induction false} InsertRealAtMost(xs: seq<real>, x: real, bound: real)
    requires AllAtMost(xs, bound) && x <= bound
    ensures AllAtMost(InsertReal(xs, x), bound)
  {
    if xs != [] && !(xs[|xs| - 1] <= x) {
      InsertRealAtMost(xs[..|xs| - 1], x, bound);
    }
  }

  lemma {:induction false} InsertRealAscends(xs: seq<real>, x: real)
    requires Ascending(xs)
    ensures Ascending(InsertReal(xs, x))
  {
    if xs == [] {
    } else if xs[|xs| - 1] <= x {
      assert AllAtMost(xs, x);
    } else {
      InsertRealAscends(xs[..|xs| - 1], x);
      InsertRealAtMost(xs[..|xs| - 1], x, xs[|xs| - 1]);
    }
  }

  lemma {:induction false} SortRealsFacts(xs: seq<real>, v: real)
    ensures Ascending(SortReals(xs)) && |SortReals(xs)| == |xs|
    ensures StrictlyBelow(SortReals(xs), v) == StrictlyBelow(xs, v) && AtOrBelow(SortReals(xs), v) == AtOrBelow(xs, v)
  {
    if xs != [] {
      SortRealsFacts(xs[..|xs| - 1], v);
      InsertRealAscends(SortReals(xs[..|xs| - 1]), xs[|xs| - 1]);
      InsertRealCounts(SortReals(xs[..|xs| - 1]), xs[|xs| - 1], v);
    }
  }

  function Ceil(x: real): (n: int)
    ensures n as real - 1.0 < x <= n as real
  {
    -((-x).Floor)
  }

  /** `p * n`: how many of `n` repetitions have to be beaten. */
  function Share(percentile: real, n: nat): real { percentile * n as real }

  function NearestRank(statistics: seq<real>, percentile: real): real
    requires statistics != [] && 0.0 < percentile < 1.0
  {
    var rank := Ceil(Share(percentile, |statistics|)) - 1;
    RankInRange(percentile, |statistics|);
    SortRealsFacts(statistics, 0.0);
    SortReals(statistics)[if rank > 0 then rank else 0]
  }

  lemma RankInRange(percentile: real, n: nat)
    requires n > 0 && 0.0 < percentile < 1.0
    ensures 0 <= Ceil(Share(percentile, n)) - 1 < n
  {
    assert 0.0 < Share(percentile, n) < n as real;
  }

  lemma {:induction false} CountsInOrder(xs: seq<real>, k: nat)
    requires Ascending(xs) && k < |xs|
    ensures StrictlyBelow(xs, xs[k]) <= k
    ensures AtOrBelow(xs, xs[k]) >= k + 1
  {
    var front := xs[..|xs| - 1];
    if k == |xs| - 1 {
      AllBelow(front, xs[k]);
    } else {
      CountsInOrder(front, k);
    }
  }

  lemma {:induction false} AllBelow(xs: seq<real>, v: real)
    requires forall a :: 0 <= a < |xs| ==> xs[a] <= v
    ensures StrictlyBelow(xs, v) <= |xs| == AtOrBelow(xs, v)
  {
    if xs != [] {
      AllBelow(xs[..|xs| - 1], v);
    }
  }

  lemma {:induction false} CountsGrow(xs: seq<real>, v: real, w: real)
    requires v < w
    ensures AtOrBelow(xs, v) <= StrictlyBelow(xs, w)
  {
    if xs != [] {
      CountsGrow(xs[..|xs| - 1], v, w);
    }
  }

  lemma {:induction false} StrictCountsGrow(xs: seq<real>, v: real, w: real)
    requires v <= w
    ensures StrictlyBelow(xs, v) <= StrictlyBelow(xs, w)
  {
    if xs != [] {
      StrictCountsGrow(xs[..|xs| - 1], v, w);
    }
  }

  /** At least `p * n` statistics are at or below the threshold, fewer than `p * n` strictly below. */
  lemma NearestRankCounts(statistics: seq<real>, percentile: real)
    requires statistics != [] && 0.0 < percentile < 1.0
    ensures var v := NearestRank(statistics, percentile);
            && AtOrBelow(statistics, v) as real >= Share(percentile, |statistics|)
            && (StrictlyBelow(statistics, v) as real) < Share(percentile, |statistics|)
  {
    var rank := Ceil(Share(percentile, |statistics|)) - 1;
    RankInRange(percentile, |statistics|);
    SortRealsFacts(statistics, 0.0);
    var v := NearestRank(statistics, percentile);
    SortRealsFacts(statistics, v);
    CountsInOrder(SortReals(statistics), rank);
  }

  /** Beating the threshold means strictly beating at least `p * n` repetitions. */
  lemma BeatsThresholdIff(statistics: seq<real>, percentile: real, observed: real)
    requires statistics != [] && 0.0 < percentile < 1.0
    ensures observed > NearestRank(statistics, percentile) <==>
            StrictlyBelow(statistics, observed) as real >= Share(percentile, |statistics|)
  {
    var v := NearestRank(statistics, percentile);
    NearestRankCounts(statistics, percentile);
    if observed > v {
      CountsGrow(statistics, v, observed);
    } else {
      StrictCountsGrow(statistics, observed, v);
    }
  }

  // ----- The test -----

  datatype Method = SignalPermutation | TimestampShift

  datatype Distribution = Distribution(method': Method, statistics: seq<real>, threshold: real)

  /** What a mask of each method is: the entries of every symbol and session shuffled, or all moved
      around by one offset that is not zero. */
  ghost predicate IsNullMask(ops: Opportunities, m: Method, mask: Mask) {
    KeepsCounts(ops, mask) && (m.TimestampShift? ==> IsShifted(ops, mask))
  }

  ghost predicate IsNullProfit(ops: Opportunities, scoring: Scoring, m: Method, profit: real) {
    exists mask :: IsNullMask(ops, m, mask) && profit == Profit(ops, Greedy(ops, EvaluationOrder(ops), mask, scoring))
  }

  /** Every statistic is the profit of the accepted sequence of a mask of the method. */
  ghost predicate FromNullMasks(ops: Opportunities, scoring: Scoring, m: Method, statistics: seq<real>) {
    forall k :: 0 <= k < |statistics| ==> IsNullProfit(ops, scoring, m, statistics[k])
  }

  method ScoreDistribution(plan: Plan, scoring: Scoring, repetitions: nat, m: Method) returns (statistics: seq<real>)
    requires Partitions(plan.ops, plan.keys, plan.groups) && ValidOps(plan.ops) && scoring.Valid()
    ensures |statistics| == repetitions && FromNullMasks(plan.ops, scoring, m, statistics)
  {
    statistics := [];
    for k := 0 to repetitions
      invariant |statistics| == k && FromNullMasks(plan.ops, scoring, m, statistics)
    {
      var mask: Mask;
      ghost var offsets: seq<nat>;
      match m {
        case SignalPermutation => mask := PermutedMask(plan);
        case TimestampShift => mask, offsets := ShiftedMask(plan);
      }
      assert IsNullMask(plan.ops, m, mask);
      var profit, accepted, rejected := ScoreSequence(plan.ops, mask, scoring);
      statistics := statistics + [profit];
    }
  }

  ghost predicate FromRepetitions(ops: Opportunities, scoring: Scoring, d: Distribution, repetitions: nat) {
    |d.statistics| == repetitions && FromNullMasks(ops, scoring, d.method', d.statistics)
  }

  function ObservedProfit(ops: Opportunities, scoring: Scoring): real {
    Profit(ops, Greedy(ops, EvaluationOrder(ops), Observed(ops), scoring))
  }

  predicate StrictlyBeats(observed: real, statistics: seq<real>, percentile: real) {
    StrictlyBelow(statistics, observed) as real >= Share(percentile, |statistics|)
  }

  /** Passed means that the observed profit strictly beats the required share of the repetitions of
      both methods; there is no verdict when the plan cannot be built. */
  method RunNullTests(ops: Opportunities, scoring: Scoring, repetitions: nat, percentile: real)
    returns (passed: Option<bool>, distributions: seq<Distribution>)
    requires ValidOps(ops) && scoring.Valid() && repetitions > 0 && 0.0 < percentile < 1.0
    ensures passed.Some? <==> Plannable(ops)
    ensures passed.Some? ==>
              && |distributions| == 2
              && distributions[0].method' == SignalPermutation && distributions[1].method' == TimestampShift
              && FromRepetitions(ops, scoring, distributions[0], repetitions)
              && FromRepetitions(ops, scoring, distributions[1], repetitions)
              && (passed.value <==>
                  && StrictlyBeats(ObservedProfit(ops, scoring), distributions[0].statistics, percentile)
                  && StrictlyBeats(ObservedProfit(ops, scoring), distributions[1].statistics, percentile))
  {
    distributions := [];
    var plan := BuildPlan(ops);
    if plan.None? { return None, []; }
    var observed, accepted, rejected := ScoreSequence(ops, Observed(ops), scoring);
    var permuted := ScoreDistribution(plan.value, scoring, repetitions, SignalPermutation);
    var shifted := ScoreDistribution(plan.value, scoring, repetitions, TimestampShift);
    var first := Distribution(SignalPermutation, permuted, NearestRank(permuted, percentile));
    var second := Distribution(TimestampShift, shifted, NearestRank(shifted, percentile));
    BeatsThresholdIff(permuted, percentile, observed);
    BeatsThresholdIff(shifted, percentile, observed);
    distributions := [first, second];
    passed := Some(observed > first.threshold && observed > second.threshold);
  }
}
