/** The static check of the entry and exit trees: an explicit-stack preflight, the recursive visit
    and the contradiction check, and what a strategy that passes them can rely on. */
module Validator {
  import opened Conditions
  import opened Complexity
  import opened Contradictions

  const MAX_DEPTH := 3
  const MAX_LEAVES := 12
  const MAX_NODES := 128
  const MAX_CHILDREN := 64

  datatype Issue =
    | TooManyNodes | TooDeep | EmptyGroup | WideGroup | TooManyLeaves | BudgetExceeded | ContradictoryConditions

  function Nodes(c: Condition): nat {
    match c
    case Compare(_, _, _) => 1
    case All(all) => 1 + NodesOf(all)
    case Any(any) => 1 + NodesOf(any)
  }

  function NodesOf(cs: seq<Condition>): nat {
    if cs == [] then 0 else Nodes(cs[0]) + NodesOf(cs[1..])
  }

  function Leaves(c: Condition): nat {
    match c
    case Compare(_, _, _) => 1
    case All(all) => LeavesOf(all)
    case Any(any) => LeavesOf(any)
  }

  function LeavesOf(cs: seq<Condition>): nat {
    if cs == [] then 0 else Leaves(cs[0]) + LeavesOf(cs[1..])
  }

  /** No node of the tree, whose root is at `depth`, is deeper than three. */
  predicate Shallow(c: Condition, depth: nat) {
    && depth <= MAX_DEPTH
    && match c
       case Compare(_, _, _) => true
       case All(all) => forall k :: 0 <= k < |all| ==> Shallow(all[k], depth + 1)
       case Any(any) => forall k :: 0 <= k < |any| ==> Shallow(any[k], depth + 1)
  }

  /** A flat group may have 1 to 64 comparisons, and a comparison may stand below at most two groups. */
  lemma {:induction false} ShapeBounds(cs: seq<Condition>, leaf: Condition)
    requires leaf.Compare? && forall k :: 0 <= k < |cs| ==> cs[k].Compare?
    ensures WellShaped(All(cs), 1) <==> 1 <= |cs| <= 64
    ensures WellShaped(Any([All([leaf])]), 1) && !WellShaped(Any([All([Any([leaf])])]), 1)
    ensures Nodes(All(cs)) == |cs| + 1 && Leaves(All(cs)) == |cs|
  {
    FlatCounts(cs);
    assert Any([leaf]).any[0] == leaf && !WellShaped(Any([leaf]), 3);
    assert All([Any([leaf])]).all[0] == Any([leaf]) && !WellShaped(All([Any([leaf])]), 2);
    assert Any([All([Any([leaf])])]).any[0] == All([Any([leaf])]);
  }

  lemma {:induction false} FlatCounts(cs: seq<Condition>)
    requires forall k :: 0 <= k < |cs| ==> cs[k].Compare?
    ensures NodesOf(cs) == |cs| && LeavesOf(cs) == |cs|
  {
    if cs != [] {
      FlatCounts(cs[1..]);
    }
  }

  function Children(c: Condition): seq<Condition> {
    match c
    case Compare(_, _, _) => []
    case All(all) => all
    case Any(any) => any
  }

  /** Shallow, with 1 to 64 children in every group. */
  predicate WellShaped(c: Condition, depth: nat) {
    && depth <= MAX_DEPTH
    && (!c.Compare? ==> 1 <= |Children(c)| <= MAX_CHILDREN)
    && match c
       case Compare(_, _, _) => true
       case All(all) => forall k :: 0 <= k < |all| ==> WellShaped(all[k], depth + 1)
       case Any(any) => forall k :: 0 <= k < |any| ==> WellShaped(any[k], depth + 1)
  }

  // ----- Defects -----

  /** What each issue of the preflight says about the node at `depth` itself. */
  predicate Defect(c: Condition, depth: nat, issue: Issue) {
    match issue
    case TooDeep => depth > MAX_DEPTH
    case EmptyGroup => depth <= MAX_DEPTH && !c.Compare? && Children(c) == []
    case WideGroup => depth <= MAX_DEPTH && |Children(c)| > MAX_CHILDREN
    case _ => false
  }

  /** The defect is at the root or below groups that have none themselves. */
  ghost predicate Finds(c: Condition, depth: nat, issue: Issue)
  {
    || Defect(c, depth, issue)
    || (&& depth <= MAX_DEPTH && |Children(c)| <= MAX_CHILDREN
        && match c
           case Compare(_, _, _) => false
           case All(all) => exists k :: 0 <= k < |all| && Finds(all[k], depth + 1, issue)
           case Any(any) => exists k :: 0 <= k < |any| && Finds(any[k], depth + 1, issue))
  }

  /** No group of the tree is empty. */
  predicate Filled(c: Condition) {
    && (!c.Compare? ==> Children(c) != [])
    && match c
       case Compare(_, _, _) => true
       case All(all) => forall k :: 0 <= k < |all| ==> Filled(all[k])
       case Any(any) => forall k :: 0 <= k < |any| ==> Filled(any[k])
  }

  /** No group of the tree has more than 64 children. */
  predicate Narrow(c: Condition) {
    && |Children(c)| <= MAX_CHILDREN
    && match c
       case Compare(_, _, _) => true
       case All(all) => forall k :: 0 <= k < |all| ==> Narrow(all[k])
       case Any(any) => forall k :: 0 <= k < |any| ==> Narrow(any[k])
  }

  ghost predicate FindsNothing(c: Condition, depth: nat) {
    forall issue :: !Finds(c, depth, issue)
  }

  lemma {:induction false} FindsMeansMisshapen(c: Condition, depth: nat, issue: Issue)
    requires Finds(c, depth, issue)
    ensures !WellShaped(c, depth)
    decreases c
  {
    if !Defect(c, depth, issue) {
      var k :| 0 <= k < |Children(c)| && Finds(Children(c)[k], depth + 1, issue);
      FindsMeansMisshapen(Children(c)[k], depth + 1, issue);
    }
  }

  /** A tree is well shaped when nothing is found. */
  lemma {:induction false} ShapedIff(c: Condition, depth: nat)
    ensures WellShaped(c, depth) <==> FindsNothing(c, depth)
    decreases c
  {
    forall k | 0 <= k < |Children(c)|
      ensures WellShaped(Children(c)[k], depth + 1) <==> FindsNothing(Children(c)[k], depth + 1)
    {
      ShapedIff(Children(c)[k], depth + 1);
    }
    if WellShaped(c, depth) {
      forall issue ensures !Finds(c, depth, issue) {
        if Finds(c, depth, issue) { FindsMeansMisshapen(c, depth, issue); }
      }
    } else if depth <= MAX_DEPTH && (c.Compare? || 1 <= |Children(c)| <= MAX_CHILDREN) {
      var k :| 0 <= k < |Children(c)| && !WellShaped(Children(c)[k], depth + 1);
      var issue :| Finds(Children(c)[k], depth + 1, issue);
      assert Finds(c, depth, issue);
    } else {
      assert Finds(c, depth, TooDeep) || Finds(c, depth, EmptyGroup) || Finds(c, depth, WideGroup);
    }
  }

  predicate OfShape(issue: Issue) { issue.TooDeep? || issue.EmptyGroup? || issue.WideGroup? }

  lemma {:induction false} FindsShapeOnly(c: Condition, depth: nat, issue: Issue)
    requires Finds(c, depth, issue)
    ensures OfShape(issue)
    decreases c
  {
    if !Defect(c, depth, issue) {
      var k :| 0 <= k < |Children(c)| && Finds(Children(c)[k], depth + 1, issue);
      FindsShapeOnly(Children(c)[k], depth + 1, issue);
    }
  }

  /** Too deep is only said of a tree that is, and always when no group is too wide to be entered. */
  lemma {:induction false} TooDeepMeans(c: Condition, depth: nat)
    ensures Finds(c, depth, TooDeep) ==> !Shallow(c, depth)
    ensures Narrow(c) && !Shallow(c, depth) ==> Finds(c, depth, TooDeep)
    decreases c
  {
    match c
    case Compare(_, _, _) =>
    case All(all) =>
      forall k | 0 <= k < |all|
        ensures Finds(all[k], depth + 1, TooDeep) ==> !Shallow(all[k], depth + 1)
        ensures Narrow(all[k]) && !Shallow(all[k], depth + 1) ==> Finds(all[k], depth + 1, TooDeep)
      {
        TooDeepMeans(all[k], depth + 1);
      }
    case Any(any) =>
      forall k | 0 <= k < |any|
        ensures Finds(any[k], depth + 1, TooDeep) ==> !Shallow(any[k], depth + 1)
        ensures Narrow(any[k]) && !Shallow(any[k], depth + 1) ==> Finds(any[k], depth + 1, TooDeep)
      {
        TooDeepMeans(any[k], depth + 1);
      }
  }

  /** An empty group is only reported when there is one, and always when the rest of the tree is in order. */
  lemma {:induction false} EmptyGroupMeans(c: Condition, depth: nat)
    ensures Finds(c, depth, EmptyGroup) ==> !Filled(c)
    ensures Narrow(c) && Shallow(c, depth) && !Filled(c) ==> Finds(c, depth, EmptyGroup)
    decreases c
  {
    match c
    case Compare(_, _, _) =>
    case All(all) =>
      forall k | 0 <= k < |all|
        ensures Finds(all[k], depth + 1, EmptyGroup) ==> !Filled(all[k])
        ensures Narrow(all[k]) && Shallow(all[k], depth + 1) && !Filled(all[k]) ==> Finds(all[k], depth + 1, EmptyGroup)
      {
        EmptyGroupMeans(all[k], depth + 1);
      }
    case Any(any) =>
      forall k | 0 <= k < |any|
        ensures Finds(any[k], depth + 1, EmptyGroup) ==> !Filled(any[k])
        ensures Narrow(any[k]) && Shallow(any[k], depth + 1) && !Filled(any[k]) ==> Finds(any[k], depth + 1, EmptyGroup)
      {
        EmptyGroupMeans(any[k], depth + 1);
      }
  }

  /** A wide group is only reported when there is one, and always when the tree is shallow. */
  lemma {:induction false} WideGroupMeans(c: Condition, depth: nat)
    ensures Finds(c, depth, WideGroup) ==> !Narrow(c)
    ensures Shallow(c, depth) && !Narrow(c) ==> Finds(c, depth, WideGroup)
    decreases c
  {
    match c
    case Compare(_, _, _) =>
    case All(all) =>
      forall k | 0 <= k < |all|
        ensures Finds(all[k], depth + 1, WideGroup) ==> !Narrow(all[k])
        ensures Shallow(all[k], depth + 1) && !Narrow(all[k]) ==> Finds(all[k], depth + 1, WideGroup)
      {
        WideGroupMeans(all[k], depth + 1);
      }
    case Any(any) =>
      forall k | 0 <= k < |any|
        ensures Finds(any[k], depth + 1, WideGroup) ==> !Narrow(any[k])
        ensures Shallow(any[k], depth + 1) && !Narrow(any[k]) ==> Finds(any[k], depth + 1, WideGroup)
      {
        WideGroupMeans(any[k], depth + 1);
      }
  }

  // ----- The preflight -----

  type Stack = seq<(Condition, nat)>

  function StackNodes(s: Stack): nat {
    if s == [] then 0 else StackNodes(s[..|s| - 1]) + Nodes(s[|s| - 1].0)
  }

  function StackLeaves(s: Stack): nat {
    if s == [] then 0 else StackLeaves(s[..|s| - 1]) + Leaves(s[|s| - 1].0)
  }

  ghost predicate StackFinds(s: Stack, issue: Issue) {
    exists k :: 0 <= k < |s| && Finds(s[k].0, s[k].1, issue)
  }

  ghost predicate SomeFinds(cs: seq<Condition>, depth: nat, issue: Issue) {
    exists k :: 0 <= k < |cs| && Finds(cs[k], depth, issue)
  }

  lemma Pushed(s: Stack, c: Condition, depth: nat)
    ensures StackNodes(s + [(c, depth)]) == StackNodes(s) + Nodes(c)
    ensures StackLeaves(s + [(c, depth)]) == StackLeaves(s) + Leaves(c)
    ensures forall issue :: StackFinds(s + [(c, depth)], issue) <==> StackFinds(s, issue) || Finds(c, depth, issue)
  {
    var t := s + [(c, depth)];
    assert t[..|s|] == s && t[|s|] == (c, depth);
    forall issue ensures StackFinds(t, issue) <==> StackFinds(s, issue) || Finds(c, depth, issue) {
      if StackFinds(s, issue) {
        var k :| 0 <= k < |s| && Finds(s[k].0, s[k].1, issue);
        assert t[k] == s[k];
      }
    }
  }

  /** `t` adds to `s` what is counted and found in `cs`. */
  ghost predicate Widened(s: Stack, cs: seq<Condition>, depth: nat, t: Stack) {
    && StackNodes(t) == StackNodes(s) + NodesOf(cs)
    && StackLeaves(t) == StackLeaves(s) + LeavesOf(cs)
    && forall issue :: StackFinds(t, issue) <==> StackFinds(s, issue) || SomeFinds(cs, depth, issue)
  }

  /** Children go on the stack last first, so that the first is on top. */
  method PushChildren(s: Stack, cs: seq<Condition>, depth: nat) returns (t: Stack)
    ensures Widened(s, cs, depth, t)
  {
    t := s;
    for i := |cs| downto 0
      invariant Widened(s, cs[i..], depth, t)
    {
      Pushed(t, cs[i], depth);
      assert cs[i..][1..] == cs[i + 1..];
      FoundInFirst(cs[i..], depth);
      t := t + [(cs[i], depth)];
    }
  }

  lemma FoundInFirst(cs: seq<Condition>, depth: nat)
    requires cs != []
    ensures forall issue :: SomeFinds(cs, depth, issue) <==>
                            Finds(cs[0], depth, issue) || SomeFinds(cs[1..], depth, issue)
  {
    forall issue
      ensures SomeFinds(cs, depth, issue) <==> Finds(cs[0], depth, issue) || SomeFinds(cs[1..], depth, issue)
    {
      if SomeFinds(cs, depth, issue) {
        var k :| 0 <= k < |cs| && Finds(cs[k], depth, issue);
        if k > 0 { assert cs[1..][k - 1] == cs[k]; }
      }
      if SomeFinds(cs[1..], depth, issue) {
        var k :| 0 <= k < |cs[1..]| && Finds(cs[1..][k], depth, issue);
        assert cs[k + 1] == cs[1..][k];
      }
    }
  }

  ghost predicate PairShaped(entry: Condition, exit: Condition) {
    WellShaped(entry, 1) && WellShaped(exit, 1)
  }

  ghost predicate PairFinds(entry: Condition, exit: Condition, issue: Issue) {
    Finds(entry, 1, issue) || Finds(exit, 1, issue)
  }

  /** The issues so far and those of the nodes still on the stack are those of the two trees. */
  ghost predicate Reports(entry: Condition, exit: Condition, stack: Stack, issues: seq<Issue>) {
    forall issue :: PairFinds(entry, exit, issue) <==> issue in issues || StackFinds(stack, issue)
  }

  /** What the walk knows while it goes on. */
  ghost predicate Walking(entry: Condition, exit: Condition, stack: Stack, nodes: nat, leaves: nat,
                          issues: seq<Issue>) {
    && nodes + StackNodes(stack) <= Nodes(entry) + Nodes(exit)
    && (issues == [] ==> nodes + StackNodes(stack) == Nodes(entry) + Nodes(exit))
    && (issues == [] ==> leaves + StackLeaves(stack) == Leaves(entry) + Leaves(exit))
    && Reports(entry, exit, stack, issues)
  }

  /** Taking a node with a defect off the stack. */
  lemma WalkPast(entry: Condition, exit: Condition, rest: Stack, condition: Condition, depth: nat, nodes: nat,
                 leaves: nat, issues: seq<Issue>, issue: Issue)
    requires Walking(entry, exit, rest + [(condition, depth)], nodes, leaves, issues)
    requires Defect(condition, depth, issue)
    ensures Walking(entry, exit, rest, nodes + 1, leaves, issues + [issue])
    ensures StackNodes(rest) < StackNodes(rest + [(condition, depth)])
  {
    Pushed(rest, condition, depth);
    OneDefect(condition, depth, issue);
  }

  lemma OneDefect(c: Condition, depth: nat, issue: Issue)
    requires Defect(c, depth, issue)
    ensures forall other :: Finds(c, depth, other) <==> other == issue
  {}

  /** Taking a comparison off the stack. */
  lemma WalkLeaf(entry: Condition, exit: Condition, rest: Stack, condition: Condition, depth: nat, nodes: nat,
                 leaves: nat, issues: seq<Issue>)
    requires Walking(entry, exit, rest + [(condition, depth)], nodes, leaves, issues)
    requires condition.Compare? && depth <= MAX_DEPTH
    ensures Walking(entry, exit, rest, nodes + 1, leaves + 1, issues)
    ensures StackNodes(rest) < StackNodes(rest + [(condition, depth)])
  {
    Pushed(rest, condition, depth);
    assert forall issue :: !Finds(condition, depth, issue);
  }

  /** Replacing a group by its children. */
  lemma WalkInto(entry: Condition, exit: Condition, rest: Stack, condition: Condition, depth: nat, stack: Stack,
                 nodes: nat, leaves: nat, issues: seq<Issue>)
    requires Walking(entry, exit, rest + [(condition, depth)], nodes, leaves, issues)
    requires !condition.Compare? && depth <= MAX_DEPTH && 1 <= |Children(condition)| <= MAX_CHILDREN
    requires Widened(rest, Children(condition), depth + 1, stack)
    ensures Walking(entry, exit, stack, nodes + 1, leaves, issues)
    ensures StackNodes(stack) < StackNodes(rest + [(condition, depth)])
  {
    Pushed(rest, condition, depth);
    assert forall issue :: Finds(condition, depth, issue) <==> SomeFinds(Children(condition), depth + 1, issue);
  }

  lemma InitialStack(entry: Condition, exit: Condition)
    ensures Walking(entry, exit, [(exit, 1), (entry, 1)], 0, 0, [])
  {
    var none: Stack := [];
    Pushed(none, exit, 1);
    Pushed([(exit, 1)], entry, 1);
    assert none + [(exit, 1)] == [(exit, 1)];
    assert [(exit, 1)] + [(entry, 1)] == [(exit, 1), (entry, 1)];
  }

  /** The issues of a walk that was not stopped: one of each kind that is found, and none of another. */
  ghost predicate Walked(entry: Condition, exit: Condition, leaves: nat, issues: seq<Issue>) {
    && (forall issue :: issue in issues <==> PairFinds(entry, exit, issue))
    && (issues == [] <==> PairShaped(entry, exit))
    && (issues == [] ==> leaves == Leaves(entry) + Leaves(exit))
  }

  lemma PairShapedIff(entry: Condition, exit: Condition)
    ensures PairShaped(entry, exit) <==> forall issue :: !PairFinds(entry, exit, issue)
    ensures forall issue :: PairFinds(entry, exit, issue) ==> OfShape(issue)
  {
    ShapedIff(entry, 1);
    ShapedIff(exit, 1);
    if forall issue :: !PairFinds(entry, exit, issue) {
      forall issue ensures !Finds(entry, 1, issue) && !Finds(exit, 1, issue) {
        assert !PairFinds(entry, exit, issue);
      }
    }
    forall issue | PairFinds(entry, exit, issue) ensures OfShape(issue) {
      if Finds(entry, 1, issue) { FindsShapeOnly(entry, 1, issue); } else { FindsShapeOnly(exit, 1, issue); }
    }
  }

  ghost predicate FromWalk(issues: seq<Issue>) {
    forall issue :: issue in issues ==> OfShape(issue) || issue.TooManyNodes?
  }

  lemma WalkEnds(entry: Condition, exit: Condition, nodes: nat, leaves: nat, issues: seq<Issue>)
    requires Walking(entry, exit, [], nodes, leaves, issues)
    ensures Walked(entry, exit, leaves, issues) && FromWalk(issues) && TooManyNodes !in issues
    ensures issues == [] ==> nodes == Nodes(entry) + Nodes(exit)
  {
    PairShapedIff(entry, exit);
    assert issues != [] ==> issues[0] in issues;
  }

  lemma WalkStops(entry: Condition, exit: Condition, stack: Stack, nodes: nat, leaves: nat, issues: seq<Issue>)
    requires Walking(entry, exit, stack, nodes, leaves, issues) && stack != [] && nodes >= MAX_NODES
    ensures Nodes(entry) + Nodes(exit) > MAX_NODES
    ensures PairShaped(entry, exit) ==> issues == []
    ensures FromWalk(issues + [TooManyNodes])
  {
    PairShapedIff(entry, exit);
    assert issues != [] ==> issues[0] in issues;
    Pushed(stack[..|stack| - 1], stack[|stack| - 1].0, stack[|stack| - 1].1);
    assert StackNodes(stack) >= Nodes(stack[|stack| - 1].0) >= 1;
  }

  /** The explicit-stack walk of both trees.  It is stopped exactly by too many nodes it gets to; otherwise
      its issues are exactly the defects of the trees, and without one it counts the leaves that the
      recursion counts. */
  method Preflight(entry: Condition, exit: Condition) returns (leaves: nat, valid: bool, issues: seq<Issue>)
    ensures valid <==> issues == []
    ensures valid <==> PairShaped(entry, exit) && Nodes(entry) + Nodes(exit) <= MAX_NODES
    ensures TooManyNodes !in issues ==> Walked(entry, exit, leaves, issues)
    ensures TooManyNodes in issues ==> Nodes(entry) + Nodes(exit) > MAX_NODES
    ensures FromWalk(issues)
    ensures PairShaped(entry, exit) && Nodes(entry) + Nodes(exit) > MAX_NODES ==> issues == [TooManyNodes]
  {
    var stack: Stack := [(exit, 1), (entry, 1)];
    InitialStack(entry, exit);
    var nodes := 0;
    leaves, valid, issues := 0, true, [];
    while stack != []
      invariant nodes <= MAX_NODES && (valid <==> issues == [])
      invariant Walking(entry, exit, stack, nodes, leaves, issues)
      decreases StackNodes(stack)
    {
      var (condition, depth) := stack[|stack| - 1];
      var rest := stack[..|stack| - 1];
      assert stack == rest + [(condition, depth)];
      if nodes + 1 > MAX_NODES {
        WalkStops(entry, exit, stack, nodes, leaves, issues);
        return leaves, false, issues + [TooManyNodes];
      }
      if depth > MAX_DEPTH {
        WalkPast(entry, exit, rest, condition, depth, nodes, leaves, issues, TooDeep);
        stack, valid, issues := rest, false, issues + [TooDeep];
      } else if condition.Compare? {
        WalkLeaf(entry, exit, rest, condition, depth, nodes, leaves, issues);
        stack, leaves := rest, leaves + 1;
      } else if |Children(condition)| == 0 {
        WalkPast(entry, exit, rest, condition, depth, nodes, leaves, issues, EmptyGroup);
        stack, valid, issues := rest, false, issues + [EmptyGroup];
      } else if |Children(condition)| > MAX_CHILDREN {
        WalkPast(entry, exit, rest, condition, depth, nodes, leaves, issues, WideGroup);
        stack, valid, issues := rest, false, issues + [WideGroup];
      } else {
        stack := PushChildren(rest, Children(condition), depth + 1);
        WalkInto(entry, exit, rest, condition, depth, stack, nodes, leaves, issues);
      }
      nodes := nodes + 1;
    }
    WalkEnds(entry, exit, nodes, leaves, issues);
  }

  // ----- The recursive visit -----

  /** Leaves down to the depth limit, and whether the limit was kept. */
  method VisitCondition(c: Condition, depth: nat) returns (leaves: nat, valid: bool)
    ensures valid <==> Shallow(c, depth)
    ensures valid ==> leaves == Leaves(c)
    decreases c
  {
    if depth > MAX_DEPTH { return 0, false; }
    if c.Compare? { return 1, true; }
    var children := Children(c);
    leaves, valid := 0, true;
    for i := 0 to |children|
      invariant valid <==> forall k :: 0 <= k < i ==> Shallow(children[k], depth + 1)
      invariant valid ==> leaves == LeavesOf(children[..i])
    {
      var childLeaves, childValid := VisitCondition(children[i], depth + 1);
      assert children[..i + 1] == children[..i] + [children[i]];
      LeavesOfSnoc(children[..i], children[i]);
      leaves := leaves + childLeaves;
      valid := valid && childValid;
    }
    assert children[..|children|] == children;
  }

  lemma {:induction false} LeavesOfSnoc(cs: seq<Condition>, c: Condition)
    ensures LeavesOf(cs + [c]) == LeavesOf(cs) + Leaves(c)
  {
    if cs == [] {
      assert cs + [c] == [c] && [c][1..] == [];
    } else {
      LeavesOfSnoc(cs[1..], c);
      assert (cs + [c])[1..] == cs[1..] + [c];
    }
  }

  lemma {:induction false} WellShapedIsShallow(c: Condition, depth: nat)
    requires WellShaped(c, depth)
    ensures Shallow(c, depth)
  {
    forall k | 0 <= k < |Children(c)| ensures Shallow(Children(c)[k], depth + 1) {
      WellShapedIsShallow(Children(c)[k], depth + 1);
    }
  }

  // ----- The whole check -----

  ghost predicate Consistent(c: Condition) {
    WithinBudget(c) && !SomeContradictory(Branches(c))
  }

  ghost predicate Acceptable(entry: Condition, exit: Condition) {
    && PairShaped(entry, exit)
    && Nodes(entry) + Nodes(exit) <= MAX_NODES
    && Leaves(entry) + Leaves(exit) <= MAX_LEAVES
    && Consistent(entry) && Consistent(exit)
  }

  function IssueOf(verdict: Verdict): seq<Issue> {
    match verdict
    case Clean => []
    case OverBudget => [BudgetExceeded]
    case Contradiction => [ContradictoryConditions]
  }

  /** Each issue of the later checks says what is wrong with the trees. */
  ghost predicate Blames(entry: Condition, exit: Condition, issues: seq<Issue>) {
    && (TooManyNodes in issues ==> Nodes(entry) + Nodes(exit) > MAX_NODES)
    && (BudgetExceeded in issues ==> !WithinBudget(entry) || !WithinBudget(exit))
    && (ContradictoryConditions in issues ==>
          (WithinBudget(entry) && SomeContradictory(Branches(entry))) ||
          (WithinBudget(exit) && SomeContradictory(Branches(exit))))
    && (PairShaped(entry, exit) ==>
          if Nodes(entry) + Nodes(exit) > MAX_NODES then TooManyNodes in issues
          else if Leaves(entry) + Leaves(exit) > MAX_LEAVES then issues == [TooManyLeaves]
          else
            && |issues| <= 2
            && (forall issue :: issue in issues ==> issue.BudgetExceeded? || issue.ContradictoryConditions?)
            && (BudgetExceeded in issues <==> !WithinBudget(entry) || !WithinBudget(exit)))
    && (!PairShaped(entry, exit) && TooManyNodes !in issues ==>
          forall issue :: PairFinds(entry, exit, issue) <==> issue in issues && !issue.TooManyLeaves?)
  }

  /** Passes exactly the acceptable pairs of trees, and blames the others for what is wrong with them. */
  method ValidateRules(entry: Condition, exit: Condition) returns (issues: seq<Issue>)
    ensures issues == [] <==> Acceptable(entry, exit)
    ensures Blames(entry, exit, issues)
  {
    PairShapedIff(entry, exit);
    var leaves, valid, found := Preflight(entry, exit);
    issues := found;
    if leaves > MAX_LEAVES {
      issues := issues + [TooManyLeaves];
    } else if valid {
      WellShapedIsShallow(entry, 1);
      WellShapedIsShallow(exit, 1);
      var entryLeaves, entryValid := VisitCondition(entry, 1);
      var exitLeaves, exitValid := VisitCondition(exit, 1);
      assert leaves == entryLeaves + exitLeaves;
      if entryValid && exitValid {
        var first := CheckContradictions(entry);
        var second := CheckContradictions(exit);
        issues := issues + IssueOf(first) + IssueOf(second);
      }
    }
  }

  lemma {:induction false} WellShapedHasBranch(c: Condition, depth: nat)
    requires WellShaped(c, depth)
    ensures Branches(c) != []
    decreases c
  {
    if c.Any? {
      WellShapedHasBranch(c.any[0], depth + 1);
    } else if c.All? {
      forall k | 0 <= k < |c.all| ensures Branches(c.all[k]) != [] {
        WellShapedHasBranch(c.all[k], depth + 1);
      }
      EachHasBranch(c.all);
      AllBranchesCount(c.all, []);
    }
  }

  lemma {:induction false} EachHasBranch(cs: seq<Condition>)
    requires forall k :: 0 <= k < |cs| ==> Branches(cs[k]) != []
    ensures Product(cs) >= 1
  {
    if cs != [] {
      EachHasBranch(cs[1..]);
      AtLeastItself(|Branches(cs[0])|, Product(cs[1..]));
    }
  }

  /** A tree that passed: its compiled rule matches some feature row, and so does each branch. */
  lemma ConsistentRuleCanMatch(c: Condition) returns (row: FeatureRow)
    requires WellShaped(c, 1) && Consistent(c)
    ensures RuleMatches(Compile(c), row)
  {
    WellShapedHasBranch(c, 1);
    assert !Contradictory(Branches(c)[0]);
    row :| BranchHolds(Branches(c)[0], row);
    RuleMatchesSomeBranch(c, row);
  }

  /** A strategy that passes can enter and can exit. */
  lemma PassingStrategyCanTrade(entry: Condition, exit: Condition) returns (enters: FeatureRow, exits: FeatureRow)
    requires Acceptable(entry, exit)
    ensures RuleMatches(Compile(entry), enters) && RuleMatches(Compile(exit), exits)
  {
    enters := ConsistentRuleCanMatch(entry);
    exits := ConsistentRuleCanMatch(exit);
  }
}
