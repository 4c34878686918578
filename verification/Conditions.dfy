/** The condition trees of the strategy language: what a tree means on a feature row, the rule it
    compiles to, and the conjunctive branches it expands to.  All three agree. */
module Conditions {
  datatype Indicator =
    | Return1 | Return3 | EmaSpread | Rsi | AtrBps | VolumeRatio | VwapDistanceBps | RangePosition | MinutesFromOpen

  datatype Comparison = Gt | Gte | Lt | Lte

  datatype Condition =
    | Compare(indicator: Indicator, op: Comparison, threshold: real)
    | All(all: seq<Condition>)
    | Any(any: seq<Condition>)

  /** A feature that is absent or not a number, one that is infinite, or a real one. */
  datatype FeatureValue = Missing | NotFinite | Number(value: real)

  type FeatureRow = map<Indicator, FeatureValue>

  predicate Satisfies(left: real, op: Comparison, right: real) {
    match op
    case Gt => left > right
    case Gte => left >= right
    case Lt => left < right
    case Lte => left <= right
  }

  /** The four comparisons by their laws: one of gt and lte holds, and one of lt and gte; gt is lt turned
      around; they differ on equal values, where only gte and lte hold; and two is gt one. */
  lemma ComparisonLaws(x: real, y: real)
    ensures Satisfies(x, Gt, y) != Satisfies(x, Lte, y) && Satisfies(x, Lt, y) != Satisfies(x, Gte, y)
    ensures Satisfies(x, Gt, y) == Satisfies(y, Lt, x)
    ensures Satisfies(x, Gte, y) == (Satisfies(x, Gt, y) || x == y)
    ensures Satisfies(2.0, Gt, 1.0)
  {}

  /** What a tree means: a comparison needs a real feature value, a group all or any of its parts. */
  predicate Holds(c: Condition, row: FeatureRow) {
    match c
    case Compare(i, op, threshold) => i in row && row[i].Number? && Satisfies(row[i].value, op, threshold)
    case All(all) => forall k :: 0 <= k < |all| ==> Holds(all[k], row)
    case Any(any) => exists k :: 0 <= k < |any| && Holds(any[k], row)
  }

  /** One condition more: a group of all asks for it too, a group of any is content with it. */
  lemma GroupLaws(cs: seq<Condition>, c: Condition, row: FeatureRow)
    ensures Holds(All([]), row) && !Holds(Any([]), row)
    ensures Holds(All(cs + [c]), row) <==> Holds(All(cs), row) && Holds(c, row)
    ensures Holds(Any(cs + [c]), row) <==> Holds(Any(cs), row) || Holds(c, row)
  {
    var more := cs + [c];
    assert more[|cs|] == c;
    assert forall k :: 0 <= k < |cs| ==> more[k] == cs[k];
  }

  // ----- Compiled rules -----

  datatype Rule =
    | ComparisonRule(indicatorFn: FeatureRow -> FeatureValue, comparisonFn: (real, real) -> bool, threshold: real)
    | AllRule(all: seq<Rule>)
    | AnyRule(any: seq<Rule>)

  function IndicatorDispatch(i: Indicator): FeatureRow -> FeatureValue {
    (row: FeatureRow) => if i in row then row[i] else Missing
  }

  function ComparisonDispatch(op: Comparison): (real, real) -> bool {
    match op
    case Gt => (left: real, right: real) => left > right
    case Gte => (left: real, right: real) => left >= right
    case Lt => (left: real, right: real) => left < right
    case Lte => (left: real, right: real) => left <= right
  }

  function Compile(c: Condition): Rule {
    match c
    case Compare(i, op, threshold) => ComparisonRule(IndicatorDispatch(i), ComparisonDispatch(op), threshold)
    case All(all) => AllRule(CompileEach(all))
    case Any(any) => AnyRule(CompileEach(any))
  }

  function CompileEach(cs: seq<Condition>): (rules: seq<Rule>)
    ensures |rules| == |cs|
  {
    if cs == [] then [] else [Compile(cs[0])] + CompileEach(cs[1..])
  }

  predicate RuleMatches(rule: Rule, row: FeatureRow) {
    match rule
    case ComparisonRule(indicatorFn, comparisonFn, threshold) =>
      (match indicatorFn(row)
       case Missing => false
       case NotFinite => false
       case Number(value) => comparisonFn(value, threshold))
    case AllRule(all) => forall k :: 0 <= k < |all| ==> RuleMatches(all[k], row)
    case AnyRule(any) => exists k :: 0 <= k < |any| && RuleMatches(any[k], row)
  }

  lemma {:induction false} CompileEachAt(cs: seq<Condition>, k: nat)
    requires k < |cs|
    ensures CompileEach(cs)[k] == Compile(cs[k])
  {
    if k > 0 {
      CompileEachAt(cs[1..], k - 1);
    }
  }

  /** Compiling changes nothing about when a condition is true. */
  lemma {:induction false} CompilePreservesMeaning(c: Condition, row: FeatureRow)
    ensures RuleMatches(Compile(c), row) <==> Holds(c, row)
  {
    match c
    case Compare(_, _, _) =>
    case All(all) =>
      forall k | 0 <= k < |all| ensures RuleMatches(CompileEach(all)[k], row) <==> Holds(all[k], row) {
        CompileEachAt(all, k);
        CompilePreservesMeaning(all[k], row);
      }
    case Any(any) =>
      forall k | 0 <= k < |any| ensures RuleMatches(CompileEach(any)[k], row) <==> Holds(any[k], row) {
        CompileEachAt(any, k);
        CompilePreservesMeaning(any[k], row);
      }
  }

  // ----- Conjunctive branches -----

  /** Comparisons that must hold together. */
  type Branch = b: seq<Condition> | forall k :: 0 <= k < |b| ==> b[k].Compare?

  function Branches(c: Condition): seq<Branch>
    decreases c, 0, 0
  {
    match c
    case Compare(_, _, _) => [[c]]
    case All(all) => AllBranches(all, [])
    case Any(any) => AnyBranches(any)
  }

  function AnyBranches(cs: seq<Condition>): seq<Branch>
    decreases cs, 0, 0
  {
    if cs == [] then [] else Branches(cs[0]) + AnyBranches(cs[1..])
  }

  /** Every way to extend `prefix` by one branch of each condition. */
  function AllBranches(cs: seq<Condition>, prefix: Branch): seq<Branch>
    decreases cs, 0, 0
  {
    if cs == [] then [prefix] else Extensions(Branches(cs[0]), cs[1..], prefix)
  }

  function Extensions(additions: seq<Branch>, rest: seq<Condition>, prefix: Branch): seq<Branch>
    decreases rest, 1, |additions|
  {
    if additions == [] then [] else AllBranches(rest, prefix + additions[0]) + Extensions(additions[1..], rest, prefix)
  }

  predicate BranchHolds(b: Branch, row: FeatureRow) {
    forall k :: 0 <= k < |b| ==> Holds(b[k], row)
  }

  predicate SomeHolds(bs: seq<Branch>, row: FeatureRow) {
    exists k :: 0 <= k < |bs| && BranchHolds(bs[k], row)
  }

  lemma SomeOfTwo(a: seq<Branch>, b: seq<Branch>, row: FeatureRow)
    ensures SomeHolds(a + b, row) <==> SomeHolds(a, row) || SomeHolds(b, row)
  {
    if SomeHolds(a, row) {
      var k :| 0 <= k < |a| && BranchHolds(a[k], row);
      assert (a + b)[k] == a[k];
    }
    if SomeHolds(b, row) {
      var k :| 0 <= k < |b| && BranchHolds(b[k], row);
      assert (a + b)[|a| + k] == b[k];
    }
  }

  lemma SomeOfFirst(bs: seq<Branch>, row: FeatureRow)
    requires bs != []
    ensures SomeHolds(bs, row) <==> BranchHolds(bs[0], row) || SomeHolds(bs[1..], row)
  {
    assert bs == [bs[0]] + bs[1..];
    SomeOfTwo([bs[0]], bs[1..], row);
    assert [bs[0]][0] == bs[0];
  }

  lemma BothHold(a: Branch, b: Branch, row: FeatureRow)
    ensures BranchHolds(a + b, row) <==> BranchHolds(a, row) && BranchHolds(b, row)
  {
    if BranchHolds(a + b, row) {
      assert forall k :: 0 <= k < |a| ==> a[k] == (a + b)[k];
      assert forall k :: 0 <= k < |b| ==> b[k] == (a + b)[|a| + k];
    }
  }

  predicate AllHold(cs: seq<Condition>, row: FeatureRow) {
    forall k :: 0 <= k < |cs| ==> Holds(cs[k], row)
  }

  lemma AllOfFirst(cs: seq<Condition>, row: FeatureRow)
    requires cs != []
    ensures AllHold(cs, row) <==> Holds(cs[0], row) && AllHold(cs[1..], row)
  {
    if Holds(cs[0], row) && AllHold(cs[1..], row) {
      forall k | 0 <= k < |cs| ensures Holds(cs[k], row) {
        if k > 0 { assert cs[k] == cs[1..][k - 1]; }
      }
    }
  }

  /** A condition is true exactly when all comparisons of some branch are. */
  lemma {:induction false} BranchesPreserveMeaning(c: Condition, row: FeatureRow)
    ensures Holds(c, row) <==> SomeHolds(Branches(c), row)
    decreases c, 0, 0
  {
    match c
    case Compare(_, _, _) =>
      assert Branches(c)[0] == [c];
      assert BranchHolds([c], row) <==> Holds([c][0], row);
    case All(all) =>
      AllBranchesMean(all, [], row);
    case Any(any) =>
      AnyBranchesMean(any, row);
  }

  lemma {:induction false} AnyBranchesMean(cs: seq<Condition>, row: FeatureRow)
    ensures (exists k :: 0 <= k < |cs| && Holds(cs[k], row)) <==> SomeHolds(AnyBranches(cs), row)
    decreases cs, 0, 0
  {
    if cs != [] {
      BranchesPreserveMeaning(cs[0], row);
      AnyBranchesMean(cs[1..], row);
      SomeOfTwo(Branches(cs[0]), AnyBranches(cs[1..]), row);
      if k :| 0 <= k < |cs| && Holds(cs[k], row) {
        if k > 0 { assert cs[k] == cs[1..][k - 1]; }
      }
      if k :| 0 <= k < |cs[1..]| && Holds(cs[1..][k], row) {
        assert cs[k + 1] == cs[1..][k];
      }
    }
  }

  lemma {:induction false} AllBranchesMean(cs: seq<Condition>, prefix: Branch, row: FeatureRow)
    ensures SomeHolds(AllBranches(cs, prefix), row) <==> BranchHolds(prefix, row) && AllHold(cs, row)
    decreases cs, 0, 0
  {
    if cs == [] {
      assert AllBranches(cs, prefix)[0] == prefix;
    } else {
      BranchesPreserveMeaning(cs[0], row);
      ExtensionsMean(Branches(cs[0]), cs[1..], prefix, row);
      AllOfFirst(cs, row);
    }
  }

  lemma {:induction false} ExtensionsMean(additions: seq<Branch>, rest: seq<Condition>, prefix: Branch, row: FeatureRow)
    ensures SomeHolds(Extensions(additions, rest, prefix), row) <==>
            BranchHolds(prefix, row) && SomeHolds(additions, row) && AllHold(rest, row)
    decreases rest, 1, |additions|
  {
    if additions != [] {
      AllBranchesMean(rest, prefix + additions[0], row);
      ExtensionsMean(additions[1..], rest, prefix, row);
      SomeOfTwo(AllBranches(rest, prefix + additions[0]), Extensions(additions[1..], rest, prefix), row);
      SomeOfFirst(additions, row);
      BothHold(prefix, additions[0], row);
    }
  }

  /** The compiled rule matches a row exactly when some branch of the tree holds on it. */
  lemma RuleMatchesSomeBranch(c: Condition, row: FeatureRow)
    ensures RuleMatches(Compile(c), row) <==> SomeHolds(Branches(c), row)
  {
    CompilePreservesMeaning(c, row);
    BranchesPreserveMeaning(c, row);
  }
}
