/** The contradiction check: one interval per indicator decides whether a branch can hold. */
module Contradictions {
  import opened Conditions
  import opened Complexity

  /** The thresholds of one indicator, in the order of the branch. */
  type Limits = seq<(Comparison, real)>

  predicate Meets(x: real, limits: Limits) {
    forall k :: 0 <= k < |limits| ==> Satisfies(x, limits[k].0, limits[k].1)
  }

  /** A bound that starts out infinite. */
  datatype Bound = Infinite | Finite(value: real, strict: bool)

  predicate Above(x: real, lower: Bound) {
    lower.Infinite? || (if lower.strict then x > lower.value else x >= lower.value)
  }

  predicate Below(x: real, upper: Bound) {
    upper.Infinite? || (if upper.strict then x < upper.value else x <= upper.value)
  }

  predicate IsLower(op: Comparison) { op.Gt? || op.Gte? }

  function Raised(lower: Bound, threshold: real, strict: bool): Bound {
    if lower.Infinite? || threshold > lower.value then Finite(threshold, strict)
    else if threshold == lower.value then Finite(lower.value, lower.strict || strict)
    else lower
  }

  function Lowered(upper: Bound, threshold: real, strict: bool): Bound {
    if upper.Infinite? || threshold < upper.value then Finite(threshold, strict)
    else if threshold == upper.value then Finite(upper.value, upper.strict || strict)
    else upper
  }

  predicate Empty(lower: Bound, upper: Bound) {
    lower.Finite? && upper.Finite? &&
    (lower.value > upper.value || (lower.value == upper.value && (lower.strict || upper.strict)))
  }

  /** An interval the test lets through contains a real number. */
  lemma NonEmptyHasPoint(lower: Bound, upper: Bound) returns (x: real)
    requires !Empty(lower, upper)
    ensures Above(x, lower) && Below(x, upper)
  {
    x := if lower.Infinite? then (if upper.Infinite? then 0.0 else upper.value - 1.0)
         else if upper.Infinite? then lower.value + 1.0
         else (lower.value + upper.value) / 2.0;
  }

  /** The interval test of one indicator: no real number meets all its limits. */
  method LimitsClash(limits: Limits) returns (clash: bool, ghost x: real)
    ensures clash <==> forall y :: !Meets(y, limits)
    ensures !clash ==> Meets(x, limits)
  {
    var lower, upper := Infinite, Infinite;
    for i := 0 to |limits|
      invariant forall y :: Above(y, lower) && Below(y, upper) <==> Meets(y, limits[..i])
    {
      var (op, threshold) := limits[i];
      ghost var before := (lower, upper);
      if IsLower(op) {
        lower := Raised(lower, threshold, op.Gt?);
      } else {
        upper := Lowered(upper, threshold, op.Lt?);
      }
      forall y ensures Above(y, lower) && Below(y, upper) <==> Meets(y, limits[..i + 1]) {
        assert Above(y, before.0) && Below(y, before.1) <==> Meets(y, limits[..i]);
        MeetsOneMore(y, limits, i);
      }
    }
    assert limits[..|limits|] == limits;
    clash := Empty(lower, upper);
    x := 0.0;
    if !clash {
      x := NonEmptyHasPoint(lower, upper);
    }
  }

  lemma MeetsOneMore(y: real, limits: Limits, i: nat)
    requires i < |limits|
    ensures Meets(y, limits[..i + 1]) <==> Meets(y, limits[..i]) && Satisfies(y, limits[i].0, limits[i].1)
  {
    assert limits[..i + 1] == limits[..i] + [limits[i]];
  }

  /** No feature row makes the whole branch true. */
  ghost predicate Contradictory(b: Branch) {
    forall row: FeatureRow :: !BranchHolds(b, row)
  }

  /** The limits the branch sets for each indicator it mentions. */
  ghost predicate Grouped(b: Branch, groups: map<Indicator, Limits>) {
    && (forall i :: i in groups <==> Mentions(b, i))
    && (forall i, x :: i in groups ==> (Meets(x, groups[i]) <==> MeetsFor(x, b, i)))
  }

  predicate Mentions(b: Branch, i: Indicator) {
    exists k :: 0 <= k < |b| && b[k].indicator == i
  }

  predicate MeetsFor(x: real, b: Branch, i: Indicator) {
    forall k :: 0 <= k < |b| && b[k].indicator == i ==> Satisfies(x, b[k].op, b[k].threshold)
  }

  method GroupByIndicator(b: Branch) returns (groups: map<Indicator, Limits>)
    ensures Grouped(b, groups)
  {
    groups := map[];
    for n := 0 to |b|
      invariant Grouped(b[..n], groups)
    {
      var i := b[n].indicator;
      ghost var before := groups;
      var limits := (if i in groups then groups[i] else []) + [(b[n].op, b[n].threshold)];
      groups := groups[i := limits];
      GroupedOneMore(b, n, before, groups);
    }
    assert b[..|b|] == b;
  }

  lemma GroupedOneMore(b: Branch, n: nat, before: map<Indicator, Limits>, after: map<Indicator, Limits>)
    requires n < |b| && Grouped(b[..n], before)
    requires var i := b[n].indicator;
             after == before[i := (if i in before then before[i] else []) + [(b[n].op, b[n].threshold)]]
    ensures Grouped(b[..n + 1], after)
  {
    var more := b[..n + 1];
    assert more == b[..n] + [b[n]];
    MentionsOneMore(b, n, more);
    forall i, x | i in after ensures Meets(x, after[i]) <==> MeetsFor(x, more, i) {
      MeetsForOneMore(b, n, i, x);
      if i == b[n].indicator {
        var old' := if i in before then before[i] else [];
        assert after[i][..|old'|] == old';
        MeetsOneMore(x, after[i], |old'|);
        assert after[i][..|old'| + 1] == after[i];
        if i !in before { NotMentioned(b[..n], before, i, x); }
      }
    }
  }

  lemma MentionsOneMore(b: Branch, n: nat, more: Branch)
    requires n < |b| && more == b[..n + 1]
    ensures forall i :: Mentions(more, i) <==> Mentions(b[..n], i) || b[n].indicator == i
  {
    forall i ensures Mentions(more, i) <==> Mentions(b[..n], i) || b[n].indicator == i {
      assert more[n] == b[n];
      if k :| 0 <= k < n && b[..n][k].indicator == i { assert more[k] == b[..n][k]; }
      if k :| 0 <= k < n + 1 && more[k].indicator == i && k != n { assert b[..n][k] == more[k]; }
    }
  }

  lemma NotMentioned(b: Branch, groups: map<Indicator, Limits>, i: Indicator, x: real)
    requires Grouped(b, groups) && i !in groups
    ensures MeetsFor(x, b, i)
  {}

  lemma MeetsForOneMore(b: Branch, n: nat, i: Indicator, x: real)
    requires n < |b|
    ensures MeetsFor(x, b[..n + 1], i) <==>
            MeetsFor(x, b[..n], i) && (b[n].indicator == i ==> Satisfies(x, b[n].op, b[n].threshold))
  {
    assert b[..n + 1] == b[..n] + [b[n]];
    if MeetsFor(x, b[..n + 1], i) {
      forall k | 0 <= k < n && b[..n][k].indicator == i ensures Satisfies(x, b[..n][k].op, b[..n][k].threshold) {
        assert b[..n + 1][k] == b[..n][k];
      }
      assert b[..n + 1][n] == b[n];
    }
  }

  /** The row that gives each mentioned indicator its point. */
  function RowOf(points: map<Indicator, real>): FeatureRow {
    map i | i in points :: Number(points[i])
  }

  lemma PointsSatisfy(b: Branch, groups: map<Indicator, Limits>, points: map<Indicator, real>)
    requires Grouped(b, groups) && points.Keys == groups.Keys
    requires forall i :: i in groups ==> Meets(points[i], groups[i])
    ensures BranchHolds(b, RowOf(points))
  {
    forall k | 0 <= k < |b| ensures Holds(b[k], RowOf(points)) {
      var i := b[k].indicator;
      assert Mentions(b, i);
      assert MeetsFor(points[i], b, i);
    }
  }

  lemma ClashContradicts(b: Branch, groups: map<Indicator, Limits>, i: Indicator)
    requires Grouped(b, groups) && i in groups
    requires forall x :: !Meets(x, groups[i])
    ensures Contradictory(b)
  {
    forall row: FeatureRow ensures !BranchHolds(b, row) {
      if BranchHolds(b, row) {
        var k :| 0 <= k < |b| && b[k].indicator == i;
        assert Holds(b[k], row);
        var x := row[i].value;
        assert MeetsFor(x, b, i);
      }
    }
  }

  /** Flagged exactly when no feature row satisfies the branch. */
  method BranchHasContradiction(b: Branch) returns (found: bool)
    ensures found <==> Contradictory(b)
  {
    var groups := GroupByIndicator(b);
    ghost var points: map<Indicator, real> := map[];
    var todo := groups.Keys;
    while todo != {}
      invariant todo <= groups.Keys && points.Keys == groups.Keys - todo
      invariant forall i :: i in points ==> Meets(points[i], groups[i])
      decreases todo
    {
      var i :| i in todo;
      var clash, x := LimitsClash(groups[i]);
      if clash {
        ClashContradicts(b, groups, i);
        return true;
      }
      points := points[i := x];
      todo := todo - {i};
    }
    PointsSatisfy(b, groups, points);
    return false;
  }

  ghost predicate SomeContradictory(bs: seq<Branch>) {
    exists k :: 0 <= k < |bs| && Contradictory(bs[k])
  }

  datatype Verdict = Clean | OverBudget | Contradiction

  /** Over budget, or some branch impossible, or neither; each exactly when it is so. */
  method CheckContradictions(c: Condition) returns (verdict: Verdict)
    ensures verdict.OverBudget? <==> !WithinBudget(c)
    ensures verdict.Contradiction? <==> WithinBudget(c) && SomeContradictory(Branches(c))
  {
    var branches, work := ConditionComplexity(c);
    if branches > MAX_BRANCHES || work > MAX_WORK { return OverBudget; }
    var all := Branches(c);
    for i := 0 to |all|
      invariant forall k :: 0 <= k < i ==> !Contradictory(all[k])
    {
      var found := BranchHasContradiction(all[i]);
      if found { return Contradiction; }
    }
    return Clean;
  }
}
