/** The saturating count of branches and comparisons, and why it is exact whenever it matters. */
module Complexity {
  import opened Conditions

  const MAX_BRANCHES := 16
  const MAX_WORK := 96

  function Min(a: nat, b: nat): nat { if b < a then b else a }

  /** Comparisons in all branches together. */
  function Total(bs: seq<Branch>): nat {
    if bs == [] then 0 else |bs[0]| + Total(bs[1..])
  }

  lemma {:induction false} TotalOfTwo(a: seq<Branch>, b: seq<Branch>)
    ensures Total(a + b) == Total(a) + Total(b)
  {
    if a == [] {
      assert a + b == b;
    } else {
      TotalOfTwo(a[1..], b);
      assert (a + b)[1..] == a[1..] + b;
    }
  }

  /** Branches of the group that holds all of `cs`, without expanding it. */
  function Product(cs: seq<Condition>): nat {
    if cs == [] then 1 else |Branches(cs[0])| * Product(cs[1..])
  }

  /** Comparisons in those branches. */
  function Weight(cs: seq<Condition>): nat {
    if cs == [] then 0 else Joined(|Branches(cs[0])|, Total(Branches(cs[0])), Product(cs[1..]), Weight(cs[1..]))
  }

  /** Comparisons when every one of `b` branches joins every one of `d`. */
  function Joined(b: nat, work: nat, d: nat, more: nat): nat { work * d + more * b }

  lemma {:induction false} AllBranchesCount(cs: seq<Condition>, prefix: Branch)
    ensures |AllBranches(cs, prefix)| == Product(cs)
    ensures Total(AllBranches(cs, prefix)) == |prefix| * Product(cs) + Weight(cs)
    decreases cs, 0
  {
    if cs != [] {
      ExtensionsCount(Branches(cs[0]), cs[1..], prefix);
      Distribute(|prefix|, |Branches(cs[0])|, Product(cs[1..]));
    }
  }

  lemma Distribute(p: nat, b: nat, d: nat)
    ensures b * (p * d) == p * (b * d)
  {}

  lemma {:induction false} ExtensionsCount(additions: seq<Branch>, rest: seq<Condition>, prefix: Branch)
    ensures |Extensions(additions, rest, prefix)| == |additions| * Product(rest)
    ensures Total(Extensions(additions, rest, prefix)) ==
            |additions| * (|prefix| * Product(rest)) +
                Joined(|additions|, Total(additions), Product(rest), Weight(rest))
    decreases rest, 1, |additions|
  {
    if additions != [] {
      AllBranchesCount(rest, prefix + additions[0]);
      ExtensionsCount(additions[1..], rest, prefix);
      TotalOfTwo(AllBranches(rest, prefix + additions[0]), Extensions(additions[1..], rest, prefix));
      OneMoreAddition(|additions[1..]|, |additions[0]|, Total(additions[1..]), |prefix|, Product(rest), Weight(rest));
    }
  }

  lemma OneMoreAddition(n: nat, first: nat, total: nat, p: nat, d: nat, more: nat)
    ensures d + n * d == (n + 1) * d
    ensures (p + first) * d + more + n * (p * d) + Joined(n, total, d, more) ==
            (n + 1) * (p * d) + Joined(n + 1, first + total, d, more)
  {
    assert (p + first) * d == p * d + first * d;
    assert (n + 1) * (p * d) == n * (p * d) + p * d;
    assert (first + total) * d == first * d + total * d;
    assert more * (n + 1) == more * n + more;
  }

  /** The loop meets the conditions from the left, the expansion peels them off from the left: one
      more condition at the right end multiplies the same way. */
  lemma {:induction false} ProductSnoc(cs: seq<Condition>, c: Condition)
    ensures Product(cs + [c]) == Product(cs) * |Branches(c)|
    ensures Weight(cs + [c]) == Joined(Product(cs), Weight(cs), |Branches(c)|, Total(Branches(c)))
  {
    if cs == [] {
      assert cs + [c] == [c] && [c][1..] == [];
    } else {
      ProductSnoc(cs[1..], c);
      assert (cs + [c])[1..] == cs[1..] + [c];
      JoinedTwice(|Branches(cs[0])|, Total(Branches(cs[0])), Product(cs[1..]), Weight(cs[1..]), |Branches(c)|,
                  Total(Branches(c)));
    }
  }

  lemma JoinedTwice(b: nat, w: nat, d: nat, v: nat, e: nat, u: nat)
    ensures b * (d * e) == (b * d) * e
    ensures Joined(b, w, d * e, Joined(d, v, e, u)) == Joined(b * d, Joined(b, w, d, v), e, u)
  {
    assert w * (d * e) == (w * d) * e;
    assert (v * e + u * d) * b == (v * b) * e + u * (b * d);
    assert (w * d + v * b) * e == (w * d) * e + (v * b) * e;
  }

  lemma {:induction false} AnySnoc(cs: seq<Condition>, c: Condition)
    ensures AnyBranches(cs + [c]) == AnyBranches(cs) + Branches(c)
  {
    if cs == [] {
      assert cs + [c] == [c] && [c][1..] == [];
      assert AnyBranches([c]) == Branches(c) + AnyBranches([]);
    } else {
      AnySnoc(cs[1..], c);
      assert (cs + [c])[1..] == cs[1..] + [c];
    }
  }

  // ----- Saturation -----

  /** The branch count is exact up to its cap, and so is the work whenever the branches are few. */
  predicate Saturates(branches: nat, work: nat, allBranches: nat, allWork: nat) {
    && branches == Min(MAX_BRANCHES + 1, allBranches)
    && (allBranches <= MAX_BRANCHES ==> work == Min(MAX_WORK + 1, allWork))
  }

  lemma SaturatesSum(b: nat, w: nat, B: nat, W: nat, cb: nat, cw: nat, CB: nat, CW: nat)
    requires Saturates(b, w, B, W) && Saturates(cb, cw, CB, CW)
    ensures Saturates(Min(MAX_BRANCHES + 1, b + cb), Min(MAX_WORK + 1, w + cw), B + CB, W + CW)
  {}

  lemma AtLeastItself(x: nat, y: nat)
    requires y >= 1
    ensures x * y >= x
  {}

  lemma SaturatesProduct(b: nat, w: nat, B: nat, W: nat, cb: nat, cw: nat, CB: nat, CW: nat)
    requires Saturates(b, w, B, W) && Saturates(cb, cw, CB, CW)
    requires B == 0 ==> W == 0
    requires CB == 0 ==> CW == 0
    ensures Saturates(Min(MAX_BRANCHES + 1, b * cb), Min(MAX_WORK + 1, Joined(b, w, cb, cw)), B * CB,
                      Joined(B, W, CB, CW))
  {
    if B == 0 || CB == 0 {
      assert B * CB == 0;
    } else {
      AtLeastItself(B, CB);
      AtLeastItself(CB, B);
      if B <= MAX_BRANCHES && CB <= MAX_BRANCHES {
        assert b == B && cb == CB;
        AtLeastItself(w, cb);
        AtLeastItself(cw, b);
        AtLeastItself(W, CB);
        AtLeastItself(CW, B);
      } else {
        AtLeastItself(b, cb);
        AtLeastItself(cb, b);
        assert b * cb == cb * b && B * CB == CB * B;
      }
    }
  }

  lemma NoBranchesNoWork(bs: seq<Branch>)
    requires |bs| == 0
    ensures Total(bs) == 0
  {}

  lemma NoProductNoWeight(cs: seq<Condition>)
    requires Product(cs) == 0
    ensures Weight(cs) == 0
  {
    AllBranchesCount(cs, []);
    NoBranchesNoWork(AllBranches(cs, []));
  }

  /** The count of the full expansion, capped. */
  method ConditionComplexity(c: Condition) returns (branches: nat, work: nat)
    ensures Saturates(branches, work, |Branches(c)|, Total(Branches(c)))
    decreases c
  {
    match c
    case Compare(_, _, _) =>
      branches, work := 1, 1;
      assert Branches(c) == [[c]] && Branches(c)[1..] == [];
    case Any(any) =>
      branches, work := 0, 0;
      for i := 0 to |any|
        invariant Saturates(branches, work, |AnyBranches(any[..i])|, Total(AnyBranches(any[..i])))
      {
        var childBranches, childWork := ConditionComplexity(any[i]);
        assert any[..i + 1] == any[..i] + [any[i]];
        AnySnoc(any[..i], any[i]);
        TotalOfTwo(AnyBranches(any[..i]), Branches(any[i]));
        SaturatesSum(branches, work, |AnyBranches(any[..i])|, Total(AnyBranches(any[..i])),
                     childBranches, childWork, |Branches(any[i])|, Total(Branches(any[i])));
        branches := Min(MAX_BRANCHES + 1, branches + childBranches);
        work := Min(MAX_WORK + 1, work + childWork);
      }
      assert any[..|any|] == any;
    case All(all) =>
      branches, work := 1, 0;
      for i := 0 to |all|
        invariant Saturates(branches, work, Product(all[..i]), Weight(all[..i]))
      {
        var childBranches, childWork := ConditionComplexity(all[i]);
        assert all[..i + 1] == all[..i] + [all[i]];
        ProductSnoc(all[..i], all[i]);
        if Product(all[..i]) == 0 { NoProductNoWeight(all[..i]); }
        if |Branches(all[i])| == 0 { NoBranchesNoWork(Branches(all[i])); }
        SaturatesProduct(branches, work, Product(all[..i]), Weight(all[..i]),
                         childBranches, childWork, |Branches(all[i])|, Total(Branches(all[i])));
        var combinedWork := work * childBranches + childWork * branches;
        branches := Min(MAX_BRANCHES + 1, branches * childBranches);
        work := Min(MAX_WORK + 1, combinedWork);
      }
      assert all[..|all|] == all;
      AllBranchesCount(all, []);
  }

  /** The expansion is small enough to be searched. */
  predicate WithinBudget(c: Condition) {
    |Branches(c)| <= MAX_BRANCHES && Total(Branches(c)) <= MAX_WORK
  }

  /** The budget for flat groups: sixteen comparisons of which any may hold, or 96 that must all hold. */
  lemma FlatBudget(cs: seq<Condition>)
    requires forall k :: 0 <= k < |cs| ==> cs[k].Compare?
    ensures WithinBudget(Any(cs)) <==> |cs| <= 16
    ensures WithinBudget(All(cs)) <==> |cs| <= 96
  {
    FlatBranches(cs);
    AllBranchesCount(cs, []);
  }

  lemma {:induction false} FlatBranches(cs: seq<Condition>)
    requires forall k :: 0 <= k < |cs| ==> cs[k].Compare?
    ensures |AnyBranches(cs)| == Total(AnyBranches(cs)) == |cs|
    ensures Product(cs) == 1 && Weight(cs) == |cs|
  {
    if cs != [] {
      FlatBranches(cs[1..]);
      assert Branches(cs[0]) == [[cs[0]]];
      TotalOfTwo([[cs[0]]], AnyBranches(cs[1..]));
    }
  }
}
