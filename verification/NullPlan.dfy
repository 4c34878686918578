/** The evaluation plan of the null tests: one group of indexes for every symbol and session, and
    the random masks that keep the entry count of every group. */
module NullPlan {
  import opened Wrappers
  import opened Orders
  import opened Division
  import opened Counting

  /** One eligible entry; times in microseconds. */
  datatype Opportunity =
    Opportunity(id: int, symbol: Symbol, session: int, signalAt: int, entryAt: int, exitAt: int, entered: bool,
                profit: real)
  {
    predicate Valid() { signalAt <= entryAt <= exitAt }

    function Key(): (Symbol, int) { (symbol, session) }
  }

  type Opportunities = seq<Opportunity>

  type Mask = seq<bool>

  predicate Increasing(indexes: seq<nat>) {
    forall a, b :: 0 <= a < b < |indexes| ==> indexes[a] < indexes[b]
  }

  /** The indexes of one symbol and session, in order. */
  function IndexesOf(ops: Opportunities, key: (Symbol, int)): (indexes: seq<nat>)
    ensures forall a :: 0 <= a < |indexes| ==> indexes[a] < |ops|
    ensures Increasing(indexes)
  {
    if ops == [] then []
    else
      var last := |ops| - 1;
      IndexesOf(ops[..last], key) + (if ops[last].Key() == key then [last] else [])
  }

  lemma {:induction false} IndexesOfMembers(ops: Opportunities, key: (Symbol, int))
    ensures forall i :: i in IndexesOf(ops, key) <==> 0 <= i < |ops| && ops[i].Key() == key
  {
    if ops != [] {
      IndexesOfMembers(ops[..|ops| - 1], key);
    }
  }

  lemma {:induction false} NoIndexes(ops: Opportunities, key: (Symbol, int))
    requires forall i :: 0 <= i < |ops| ==> ops[i].Key() != key
    ensures IndexesOf(ops, key) == []
  {
    if ops != [] {
      NoIndexes(ops[..|ops| - 1], key);
    }
  }

  function Observed(ops: Opportunities): Mask {
    seq(|ops|, i requires 0 <= i < |ops| => ops[i].entered)
  }

  /** Set bits of `mask` at `indexes`. */
  function SetAt(mask: Mask, indexes: seq<nat>): nat
    requires forall a :: 0 <= a < |indexes| ==> indexes[a] < |mask|
  {
    if indexes == [] then 0
    else SetAt(mask, indexes[..|indexes| - 1]) + (if mask[indexes[|indexes| - 1]] then 1 else 0)
  }

  /** Entries of one symbol and session under `mask`. */
  function Entries(ops: Opportunities, mask: Mask, key: (Symbol, int)): nat
    requires |mask| == |ops|
  {
    if ops == [] then 0
    else
      var last := |ops| - 1;
      Entries(ops[..last], mask[..last], key) + (if ops[last].Key() == key && mask[last] then 1 else 0)
  }

  /** Counting the entries of a symbol and session counts the set bits of its opportunities. */
  lemma {:induction false} EntriesAreCounted(ops: Opportunities, mask: Mask, key: (Symbol, int))
    requires |mask| == |ops|
    ensures Entries(ops, mask, key) == |Chosen(|ops|, i => 0 <= i < |ops| == |mask| && ops[i].Key() == key && mask[i])|
  {
    var p := (i: int) => 0 <= i < |ops| == |mask| && ops[i].Key() == key && mask[i];
    if ops == [] {
      ChosenNone(p);
    } else {
      var last := |ops| - 1;
      var o, m := ops[..last], mask[..last];
      EntriesAreCounted(o, m, key);
      ChosenNext(last, |ops|, i => 0 <= i < |o| == |m| && o[i].Key() == key && m[i], p);
    }
  }

  lemma {:induction false} SetAtPrefix(mask: Mask, n: nat, indexes: seq<nat>)
    requires n <= |mask| && forall a :: 0 <= a < |indexes| ==> indexes[a] < n
    ensures SetAt(mask[..n], indexes) == SetAt(mask, indexes)
  {
    if indexes != [] {
      SetAtPrefix(mask, n, indexes[..|indexes| - 1]);
    }
  }

  lemma {:induction false} EntriesAreSet(ops: Opportunities, mask: Mask, key: (Symbol, int))
    requires |mask| == |ops|
    ensures Entries(ops, mask, key) == SetAt(mask, IndexesOf(ops, key))
  {
    if ops != [] {
      var last := |ops| - 1;
      EntriesAreSet(ops[..last], mask[..last], key);
      SetAtPrefix(mask, last, IndexesOf(ops[..last], key));
      var before := IndexesOf(ops[..last], key);
      if ops[last].Key() == key {
        assert IndexesOf(ops, key)[..|before|] == before;
      } else {
        assert IndexesOf(ops, key) == before;
      }
    }
  }

  // ----- Groups -----

  datatype Plan = Plan(ops: Opportunities, keys: seq<(Symbol, int)>, groups: seq<seq<nat>>)

  /** Every symbol and session that occurs has one group, and the group has exactly its indexes. */
  predicate Partitions(ops: Opportunities, keys: seq<(Symbol, int)>, groups: seq<seq<nat>>) {
    && |groups| == |keys|
    && (forall g :: 0 <= g < |keys| ==> groups[g] == IndexesOf(ops, keys[g]) && groups[g] != [])
    && (forall g, h :: 0 <= g < h < |keys| ==> keys[g] != keys[h])
    && (forall i :: 0 <= i < |ops| ==> ops[i].Key() in keys)
  }

  predicate LiesAt(groups: seq<seq<nat>>, i: nat, g: int, a: int) {
    0 <= g < |groups| && 0 <= a < |groups[g]| && groups[g][a] == i
  }

  /** Each index lies in one group, at one place. */
  lemma EveryIndexOnce(ops: Opportunities, keys: seq<(Symbol, int)>, groups: seq<seq<nat>>, i: nat)
    requires Partitions(ops, keys, groups) && i < |ops|
    ensures exists g, a :: LiesAt(groups, i, g, a)
    ensures forall g, a, h, b :: LiesAt(groups, i, g, a) && LiesAt(groups, i, h, b) ==> g == h && a == b
  {
    var g :| 0 <= g < |keys| && keys[g] == ops[i].Key();
    IndexesOfMembers(ops, keys[g]);
    var a :| 0 <= a < |groups[g]| && groups[g][a] == i;
    assert LiesAt(groups, i, g, a);
    forall g, a, h, b | LiesAt(groups, i, g, a) && LiesAt(groups, i, h, b) ensures g == h && a == b {
      IndexesOfMembers(ops, keys[g]);
      IndexesOfMembers(ops, keys[h]);
      assert groups[g][a] in groups[g] && groups[h][b] in groups[h];
      assert keys[g] == keys[h];
      assert g == h;
    }
  }

  predicate Shiftable(ops: Opportunities, key: (Symbol, int)) {
    var entered := Entries(ops, Observed(ops), key);
    entered == 0 || entered < |IndexesOf(ops, key)|
  }

  predicate Active(ops: Opportunities, key: (Symbol, int)) {
    Entries(ops, Observed(ops), key) > 0
  }

  type Lists = map<(Symbol, int), seq<nat>>

  function ListFor(lists: Lists, key: (Symbol, int)): seq<nat> {
    if key in lists then lists[key] else []
  }

  /** The lists hold the indexes of the first `n` opportunities. */
  ghost predicate ListsUpTo(ops: Opportunities, n: nat, lists: Lists)
    requires n <= |ops|
  {
    forall k :: ListFor(lists, k) == IndexesOf(ops[..n], k)
  }

  /** The keys are those of the lists, each once, and no list is empty. */
  ghost predicate KeysOf(keys: seq<(Symbol, int)>, lists: Lists) {
    && (forall k :: k in lists <==> k in keys)
    && (forall k :: k in lists ==> lists[k] != [])
    && (forall g, h :: 0 <= g < h < |keys| ==> keys[g] != keys[h])
  }

  lemma IndexesGrow(ops: Opportunities, n: nat, next: nat, k: (Symbol, int))
    requires n < |ops| && next == n + 1
    ensures IndexesOf(ops[..next], k) ==
            if ops[n].Key() == k then IndexesOf(ops[..n], k) + [n] else IndexesOf(ops[..n], k)
  {
    assert ops[..next][..n] == ops[..n];
  }

  lemma OneMoreIndex(ops: Opportunities, n: nat, next: nat, lists: Lists)
    requires n < |ops| && next == n + 1 && ListsUpTo(ops, n, lists)
    ensures ListsUpTo(ops, next, lists[ops[n].Key() := ListFor(lists, ops[n].Key()) + [n]])
  {
    var key := ops[n].Key();
    forall k ensures ListFor(lists[key := ListFor(lists, key) + [n]], k) == IndexesOf(ops[..next], k) {
      IndexesGrow(ops, n, next, k);
      assert ListFor(lists, k) == IndexesOf(ops[..n], k);
    }
  }

  lemma OneMoreKey(keys: seq<(Symbol, int)>, lists: Lists, key: (Symbol, int), list: seq<nat>)
    requires KeysOf(keys, lists) && list != []
    ensures KeysOf(if key in lists then keys else keys + [key], lists[key := list])
  {}

  /** Group the indexes in one pass; keys keep the order of their first index. */
  method GroupIndexes(ops: Opportunities) returns (keys: seq<(Symbol, int)>, groups: seq<seq<nat>>)
    ensures Partitions(ops, keys, groups)
  {
    keys := [];
    var lists: Lists := map[];
    var n := 0;
    while n != |ops|
      invariant 0 <= n <= |ops| && ListsUpTo(ops, n, lists) && KeysOf(keys, lists)
      decreases |ops| - n
    {
      var key, next := ops[n].Key(), n + 1;
      OneMoreIndex(ops, n, next, lists);
      OneMoreKey(keys, lists, key, ListFor(lists, key) + [n]);
      if key !in lists { keys := keys + [key]; }
      lists := lists[key := ListFor(lists, key) + [n]];
      n := next;
    }
    groups := seq(|keys|, g requires 0 <= g < |keys| => ListFor(lists, keys[g]));
    ListsPartition(ops, keys, lists, groups);
  }

  lemma ListsPartition(ops: Opportunities, keys: seq<(Symbol, int)>, lists: Lists, groups: seq<seq<nat>>)
    requires ListsUpTo(ops, |ops|, lists) && KeysOf(keys, lists)
    requires |groups| == |keys| && forall g :: 0 <= g < |keys| ==> groups[g] == ListFor(lists, keys[g])
    ensures Partitions(ops, keys, groups)
  {
    assert ops[..|ops|] == ops;
    forall g | 0 <= g < |keys| ensures groups[g] == IndexesOf(ops, keys[g]) && groups[g] != [] {
      assert keys[g] in lists;
    }
    forall i | 0 <= i < |ops| ensures ops[i].Key() in keys {
      IndexesOfMembers(ops, ops[i].Key());
      assert i in IndexesOf(ops, ops[i].Key());
      assert ListFor(lists, ops[i].Key()) == IndexesOf(ops, ops[i].Key());
    }
  }

  method CountEntered(ops: Opportunities, indexes: seq<nat>) returns (count: nat)
    requires forall a :: 0 <= a < |indexes| ==> indexes[a] < |ops|
    ensures count == SetAt(Observed(ops), indexes)
  {
    count := 0;
    for a := 0 to |indexes|
      invariant count == SetAt(Observed(ops), indexes[..a])
    {
      assert indexes[..a + 1][..a] == indexes[..a];
      if ops[indexes[a]].entered { count := count + 1; }
    }
    assert indexes[..|indexes|] == indexes;
  }

  /** A plan exists exactly when something was entered and every group with entries has a free slot. */
  method BuildPlan(ops: Opportunities) returns (plan: Option<Plan>)
    ensures plan.Some? <==> Plannable(ops)
    ensures plan.Some? ==> plan.value.ops == ops && Partitions(ops, plan.value.keys, plan.value.groups)
  {
    var keys, groups := GroupIndexes(ops);
    var active, shiftable := false, true;
    var g := 0;
    while g != |groups|
      invariant 0 <= g <= |groups|
      invariant active <==> SomeActive(ops, keys[..g])
      invariant shiftable <==> AllShiftable(ops, keys[..g])
      decreases |groups| - g
    {
      var entered := CountEntries(ops, keys, groups, g);
      var next := g + 1;
      OneMoreGroup(ops, keys, g, next);
      if entered > 0 {
        active := true;
        if entered == |groups[g]| { shiftable := false; }
      }
      g := next;
    }
    assert keys[..|keys|] == keys;
    OnlyKeysMatter(ops, keys, groups);
    return if active && shiftable then Some(Plan(ops, keys, groups)) else None;
  }

  method CountEntries(ops: Opportunities, keys: seq<(Symbol, int)>, groups: seq<seq<nat>>, g: nat)
    returns (entered: nat)
    requires Partitions(ops, keys, groups) && g < |groups|
    ensures entered <= |groups[g]|
    ensures entered > 0 <==> Active(ops, keys[g])
    ensures Shiftable(ops, keys[g]) <==> entered == 0 || entered < |groups[g]|
  {
    EntriesAreSet(ops, Observed(ops), keys[g]);
    SetAtMost(Observed(ops), groups[g]);
    entered := CountEntered(ops, groups[g]);
  }

  ghost predicate SomeActive(ops: Opportunities, keys: seq<(Symbol, int)>) {
    exists k :: k in keys && Active(ops, k)
  }

  ghost predicate AllShiftable(ops: Opportunities, keys: seq<(Symbol, int)>) {
    forall k :: k in keys ==> Shiftable(ops, k)
  }

  /** Something was entered, and every group with entries has a free slot. */
  ghost predicate Plannable(ops: Opportunities) {
    (exists k :: Active(ops, k)) && forall k :: Shiftable(ops, k)
  }

  /** Some opportunity was entered, and none without another of its symbol and session that was not. */
  lemma PlannableMeans(ops: Opportunities)
    ensures Plannable(ops) <==>
            && (exists i :: 0 <= i < |ops| && ops[i].entered)
            && (forall i :: 0 <= i < |ops| && ops[i].entered ==>
                  exists j :: 0 <= j < |ops| && ops[j].Key() == ops[i].Key() && !ops[j].entered)
  {
    forall k
      ensures Active(ops, k) <==> exists i :: 0 <= i < |ops| && ops[i].Key() == k && ops[i].entered
      ensures Shiftable(ops, k) <==>
              (Active(ops, k) ==> exists j :: 0 <= j < |ops| && ops[j].Key() == k && !ops[j].entered)
    {
      GroupEntries(ops, k);
    }
    forall i | 0 <= i < |ops| && ops[i].entered ensures Active(ops, ops[i].Key()) {}
  }

  lemma {:induction false} GroupEntries(ops: Opportunities, key: (Symbol, int))
    ensures var entered := Entries(ops, Observed(ops), key);
            && entered <= |IndexesOf(ops, key)|
            && (entered > 0 <==> exists i :: 0 <= i < |ops| && ops[i].Key() == key && ops[i].entered)
            && (entered < |IndexesOf(ops, key)| <==>
                exists j :: 0 <= j < |ops| && ops[j].Key() == key && !ops[j].entered)
  {
    if ops != [] {
      var front := ops[..|ops| - 1];
      GroupEntries(front, key);
      assert Observed(ops)[..|front|] == Observed(front);
      assert ops == front + [ops[|front|]];
    }
  }

  lemma OneMoreGroup(ops: Opportunities, keys: seq<(Symbol, int)>, g: nat, next: nat)
    requires g < |keys| && next == g + 1
    ensures SomeActive(ops, keys[..next]) <==> SomeActive(ops, keys[..g]) || Active(ops, keys[g])
    ensures AllShiftable(ops, keys[..next]) <==> AllShiftable(ops, keys[..g]) && Shiftable(ops, keys[g])
  {
    assert keys[..next] == keys[..g] + [keys[g]];
  }

  lemma {:induction false} SetAtMost(mask: Mask, indexes: seq<nat>)
    requires forall a :: 0 <= a < |indexes| ==> indexes[a] < |mask|
    ensures SetAt(mask, indexes) <= |indexes|
  {
    if indexes != [] {
      SetAtMost(mask, indexes[..|indexes| - 1]);
    }
  }

  lemma OnlyKeysMatter(ops: Opportunities, keys: seq<(Symbol, int)>, groups: seq<seq<nat>>)
    requires Partitions(ops, keys, groups)
    ensures Plannable(ops) <==> SomeActive(ops, keys) && AllShiftable(ops, keys)
  {
    forall k | k !in keys ensures !Active(ops, k) && Shiftable(ops, k) {
      NoIndexes(ops, k);
      EntriesAreSet(ops, Observed(ops), k);
    }
  }

  // ----- Masks -----

  /** Every symbol and session has as many entries as were observed. */
  ghost predicate KeepsCounts(ops: Opportunities, mask: Mask) {
    |mask| == |ops| && forall k :: Entries(ops, mask, k) == Entries(ops, Observed(ops), k)
  }

  /** The bits that `local` gives the group. */
  predicate Assigned(mask: Mask, indexes: seq<nat>, local: seq<bool>) {
    && |local| == |indexes|
    && forall a :: 0 <= a < |indexes| ==> indexes[a] < |mask| && mask[indexes[a]] == local[a]
  }

  function SetIn(bits: seq<bool>): nat {
    if bits == [] then 0 else SetIn(bits[..|bits| - 1]) + (if bits[|bits| - 1] then 1 else 0)
  }

  lemma {:induction false} AssignedCount(mask: Mask, indexes: seq<nat>, local: seq<bool>)
    requires Assigned(mask, indexes, local)
    ensures SetAt(mask, indexes) == SetIn(local)
  {
    if indexes != [] {
      AssignedCount(mask, indexes[..|indexes| - 1], local[..|local| - 1]);
    }
  }

  lemma {:induction false} SetInIsMultiset(bits: seq<bool>)
    ensures SetIn(bits) == multiset(bits)[true]
  {
    if bits != [] {
      SetInIsMultiset(bits[..|bits| - 1]);
      assert bits == bits[..|bits| - 1] + [bits[|bits| - 1]];
    }
  }

  /** The observed bits of a group. */
  function Local(ops: Opportunities, indexes: seq<nat>): (local: seq<bool>)
    requires forall a :: 0 <= a < |indexes| ==> indexes[a] < |ops|
    ensures Assigned(Observed(ops), indexes, local)
  {
    seq(|indexes|, a requires 0 <= a < |indexes| => ops[indexes[a]].entered)
  }

  /** Every permutation of the bits can come out. */
  method Shuffle(bits: seq<bool>) returns (shuffled: seq<bool>)
    ensures multiset(shuffled) == multiset(bits) && |shuffled| == |bits|
  {
    shuffled := bits;
    var i := |bits|;
    while i > 1
      invariant i <= |bits| == |shuffled| && multiset(shuffled) == multiset(bits)
    {
      i := i - 1;
      var j :| 0 <= j <= i;
      shuffled := shuffled[i := shuffled[j]][j := shuffled[i]];
    }
  }

  /** The place `offset` further on in a group of `n`, going around. */
  function Around(a: nat, offset: nat, n: nat): (c: nat)
    requires a < n && offset < n
    ensures c < n
  {
    if a + offset < n then a + offset else a + offset - n
  }

  lemma AroundIsRemainder(a: nat, offset: nat, n: nat)
    requires a < n && offset < n
    ensures Remainder(a + offset, n) == Around(a, offset, n)
  {
    if a + offset < n {
      DivModOf(0, n, a + offset);
    } else {
      DivModOf(1, n, a + offset - n);
    }
  }

  /** Each bit moves `offset` places on. */
  function Rotated(bits: seq<bool>, offset: nat): (r: seq<bool>)
    requires offset < |bits|
    ensures |r| == |bits|
    ensures forall a :: 0 <= a < |bits| ==> r[Around(a, offset, |bits|)] == bits[a]
  {
    bits[|bits| - offset..] + bits[..|bits| - offset]
  }

  lemma RotatedKeepsBits(bits: seq<bool>, offset: nat)
    requires offset < |bits|
    ensures multiset(Rotated(bits, offset)) == multiset(bits)
  {
    assert bits == bits[..|bits| - offset] + bits[|bits| - offset..];
  }

  /** The groups before `g` have received permutations of their observed bits. */
  predicate Rearranged(plan: Plan, mask: Mask, g: int) {
    && |mask| == |plan.ops| && g <= |plan.groups|
    && forall h :: 0 <= h < g ==>
         && (forall a :: 0 <= a < |plan.groups[h]| ==> plan.groups[h][a] < |plan.ops|)
         && SetAt(mask, plan.groups[h]) == SetAt(Observed(plan.ops), plan.groups[h])
  }

  lemma RearrangedKeepsCounts(plan: Plan, mask: Mask)
    requires Partitions(plan.ops, plan.keys, plan.groups) && Rearranged(plan, mask, |plan.groups|)
    ensures KeepsCounts(plan.ops, mask)
  {
    forall k ensures Entries(plan.ops, mask, k) == Entries(plan.ops, Observed(plan.ops), k) {
      EntriesAreSet(plan.ops, mask, k);
      EntriesAreSet(plan.ops, Observed(plan.ops), k);
      if k in plan.keys {
        var g :| 0 <= g < |plan.keys| && plan.keys[g] == k;
        assert plan.groups[g] == IndexesOf(plan.ops, k);
      } else {
        NoIndexes(plan.ops, k);
      }
    }
  }

  lemma GroupFacts(plan: Plan, g: int)
    requires Partitions(plan.ops, plan.keys, plan.groups) && 0 <= g < |plan.groups|
    ensures forall a :: 0 <= a < |plan.groups[g]| ==> plan.groups[g][a] < |plan.ops|
    ensures Increasing(plan.groups[g])
    ensures forall h, a, b ::
              0 <= h < |plan.groups| && h != g && 0 <= a < |plan.groups[g]| && 0 <= b < |plan.groups[h]| ==>
              plan.groups[g][a] != plan.groups[h][b]
  {
    IndexesOfMembers(plan.ops, plan.keys[g]);
    forall h, a, b | 0 <= h < |plan.groups| && h != g && 0 <= a < |plan.groups[g]| && 0 <= b < |plan.groups[h]|
      ensures plan.groups[g][a] != plan.groups[h][b]
    {
      IndexesOfMembers(plan.ops, plan.keys[h]);
      assert plan.groups[h][b] in plan.groups[h] && plan.groups[g][a] in plan.groups[g];
      assert plan.keys[g] != plan.keys[h];
    }
  }

  /** Two masks that agree on a group count the same there. */
  lemma {:induction false} SetAtSame(a: Mask, b: Mask, indexes: seq<nat>)
    requires |a| == |b| && forall k :: 0 <= k < |indexes| ==> indexes[k] < |a| && a[indexes[k]] == b[indexes[k]]
    ensures SetAt(a, indexes) == SetAt(b, indexes)
  {
    if indexes != [] {
      SetAtSame(a, b, indexes[..|indexes| - 1]);
    }
  }

  /** Only the bits of group `g` change. */
  predicate OnlyGroup(before: Mask, after: Mask, indexes: seq<nat>) {
    |after| == |before| && forall i :: 0 <= i < |before| && i !in indexes ==> after[i] == before[i]
  }

  lemma RearrangedStep(plan: Plan, before: Mask, after: Mask, g: int, local: seq<bool>)
    requires Partitions(plan.ops, plan.keys, plan.groups) && 0 <= g < |plan.groups|
    requires Rearranged(plan, before, g) && OnlyGroup(before, after, plan.groups[g]) &&
             Assigned(after, plan.groups[g], local)
    requires forall a :: 0 <= a < |plan.groups[g]| ==> plan.groups[g][a] < |plan.ops|
    requires multiset(local) == multiset(Local(plan.ops, plan.groups[g]))
    ensures Rearranged(plan, after, g + 1)
  {
    GroupFacts(plan, g);
    AssignedCount(after, plan.groups[g], local);
    AssignedCount(Observed(plan.ops), plan.groups[g], Local(plan.ops, plan.groups[g]));
    SetInIsMultiset(local);
    SetInIsMultiset(Local(plan.ops, plan.groups[g]));
    forall h | 0 <= h < g ensures SetAt(after, plan.groups[h]) == SetAt(before, plan.groups[h]) {
      SetAtSame(after, before, plan.groups[h]);
    }
  }

  /** Write the bits of one group into the mask. */
  method Place(mask: Mask, indexes: seq<nat>, local: seq<bool>) returns (result: Mask)
    requires |local| == |indexes| && forall a :: 0 <= a < |indexes| ==> indexes[a] < |mask|
    requires Increasing(indexes)
    ensures OnlyGroup(mask, result, indexes) && Assigned(result, indexes, local)
  {
    result := mask;
    for a := 0 to |indexes|
      invariant |result| == |mask|
      invariant forall b :: 0 <= b < a ==> result[indexes[b]] == local[b]
      invariant OnlyGroup(mask, result, indexes)
    {
      assert indexes[a] in indexes;
      result := result[indexes[a] := local[a]];
    }
  }

  method PermutedMask(plan: Plan) returns (result: Mask)
    requires Partitions(plan.ops, plan.keys, plan.groups)
    ensures KeepsCounts(plan.ops, result)
  {
    result := seq(|plan.ops|, i => false);
    for g := 0 to |plan.groups|
      invariant Rearranged(plan, result, g)
    {
      GroupFacts(plan, g);
      var local := Shuffle(Local(plan.ops, plan.groups[g]));
      ghost var before := result;
      result := Place(result, plan.groups[g], local);
      RearrangedStep(plan, before, result, g, local);
    }
    RearrangedKeepsCounts(plan, result);
  }

  /** Write the observed bits of a group `offset` places further on. */
  method PlaceShifted(mask: Mask, ops: Opportunities, indexes: seq<nat>, offset: nat) returns (result: Mask)
    requires |mask| == |ops| && 0 < offset < |indexes|
    requires forall a :: 0 <= a < |indexes| ==> indexes[a] < |ops|
    requires Increasing(indexes)
    ensures OnlyGroup(mask, result, indexes) && Assigned(result, indexes, Rotated(Local(ops, indexes), offset))
  {
    result := mask;
    for a := 0 to |indexes|
      invariant |result| == |mask| && OnlyGroup(mask, result, indexes)
      invariant forall b :: 0 <= b < a ==> result[indexes[Around(b, offset, |indexes|)]] == ops[indexes[b]].entered
    {
      AroundIsRemainder(a, offset, |indexes|);
      var target := Remainder(a + offset, |indexes|);
      assert indexes[target] in indexes;
      result := result[indexes[target] := ops[indexes[a]].entered];
    }
    ShiftedIsRotated(result, ops, indexes, offset);
  }

  lemma ShiftedIsRotated(result: Mask, ops: Opportunities, indexes: seq<nat>, offset: nat)
    requires |result| == |ops| && 0 < offset < |indexes|
    requires forall a :: 0 <= a < |indexes| ==> indexes[a] < |ops|
    requires forall b :: 0 <= b < |indexes| ==> result[indexes[Around(b, offset, |indexes|)]] == ops[indexes[b]].entered
    ensures Assigned(result, indexes, Rotated(Local(ops, indexes), offset))
  {
    var local := Local(ops, indexes);
    forall c | 0 <= c < |indexes| ensures result[indexes[c]] == Rotated(local, offset)[c] {
      var b := if c >= offset then c - offset else c + |indexes| - offset;
      ComesFrom(local, offset, b, c);
    }
  }

  lemma ComesFrom(bits: seq<bool>, offset: nat, b: nat, c: nat)
    requires offset < |bits| && c < |bits| && b == if c >= offset then c - offset else c + |bits| - offset
    ensures b < |bits| && Around(b, offset, |bits|) == c && Rotated(bits, offset)[c] == bits[b]
  {}

  /** The bits of the group, moved around by `offset`, which is zero only for a single bit. */
  predicate IsShift(ops: Opportunities, indexes: seq<nat>, mask: Mask, offset: nat) {
    && (forall a :: 0 <= a < |indexes| ==> indexes[a] < |ops|)
    && offset < |indexes| && (offset == 0 ==> |indexes| == 1)
    && Assigned(mask, indexes, Rotated(Local(ops, indexes), offset))
  }

  /** The groups before `g` are shifted by these offsets. */
  predicate ShiftedUpTo(plan: Plan, mask: Mask, offsets: seq<nat>, g: int) {
    && |offsets| == g <= |plan.groups|
    && forall h :: 0 <= h < g ==> IsShift(plan.ops, plan.groups[h], mask, offsets[h])
  }

  /** Every symbol and session is shifted by an offset of its own. */
  ghost predicate IsShifted(ops: Opportunities, mask: Mask) {
    forall k :: IndexesOf(ops, k) != [] ==> exists offset :: IsShift(ops, IndexesOf(ops, k), mask, offset)
  }

  lemma AllGroupsShifted(plan: Plan, mask: Mask, offsets: seq<nat>)
    requires Partitions(plan.ops, plan.keys, plan.groups) && ShiftedUpTo(plan, mask, offsets, |plan.groups|)
    ensures IsShifted(plan.ops, mask)
  {
    forall k | IndexesOf(plan.ops, k) != []
      ensures exists offset :: IsShift(plan.ops, IndexesOf(plan.ops, k), mask, offset)
    {
      if k in plan.keys {
        var g :| 0 <= g < |plan.keys| && plan.keys[g] == k;
        assert IsShift(plan.ops, plan.groups[g], mask, offsets[g]);
      } else {
        NoIndexes(plan.ops, k);
      }
    }
  }

  lemma AssignedStays(before: Mask, after: Mask, changed: seq<nat>, indexes: seq<nat>, local: seq<bool>)
    requires OnlyGroup(before, after, changed) && Assigned(before, indexes, local)
    requires forall a, b :: 0 <= a < |changed| && 0 <= b < |indexes| ==> changed[a] != indexes[b]
    ensures Assigned(after, indexes, local)
  {}

  lemma ShiftStays(plan: Plan, before: Mask, after: Mask, g: int, h: int, offset: nat)
    requires Partitions(plan.ops, plan.keys, plan.groups) && 0 <= h < g < |plan.groups| && |before| == |plan.ops|
    requires IsShift(plan.ops, plan.groups[h], before, offset) && OnlyGroup(before, after, plan.groups[g])
    ensures IsShift(plan.ops, plan.groups[h], after, offset)
  {
    GroupFacts(plan, g);
    var indexes := plan.groups[h];
    AssignedStays(before, after, plan.groups[g], indexes, Rotated(Local(plan.ops, indexes), offset));
  }

  lemma ShiftedOneMore(plan: Plan, before: Mask, after: Mask, offsets: seq<nat>, offset: nat, g: int, next: int)
    requires Partitions(plan.ops, plan.keys, plan.groups) && 0 <= g < |plan.groups| && next == g + 1 &&
             |before| == |plan.ops|
    requires ShiftedUpTo(plan, before, offsets, g) && OnlyGroup(before, after, plan.groups[g])
    requires IsShift(plan.ops, plan.groups[g], after, offset)
    ensures ShiftedUpTo(plan, after, offsets + [offset], next)
  {
    var more := offsets + [offset];
    forall h | 0 <= h < next ensures IsShift(plan.ops, plan.groups[h], after, more[h]) {
      if h < g {
        assert more[h] == offsets[h];
        ShiftStays(plan, before, after, g, h, offsets[h]);
      } else {
        assert h == g && more[h] == offset;
      }
    }
  }

  /** Each group is shifted by an arbitrary offset that is not zero, unless it is a single bit. */
  method ShiftedMask(plan: Plan) returns (result: Mask, ghost offsets: seq<nat>)
    requires Partitions(plan.ops, plan.keys, plan.groups)
    ensures KeepsCounts(plan.ops, result)
    ensures ShiftedUpTo(plan, result, offsets, |plan.groups|) && IsShifted(plan.ops, result)
  {
    result, offsets := seq(|plan.ops|, i => false), [];
    var g := 0;
    while g != |plan.groups|
      invariant 0 <= g <= |plan.groups| && Rearranged(plan, result, g) && ShiftedUpTo(plan, result, offsets, g)
      decreases |plan.groups| - g
    {
      ghost var before := result;
      ghost var offset;
      var next := g + 1;
      result, offset := ShiftGroup(plan, result, g, next);
      ShiftedOneMore(plan, before, result, offsets, offset, g, next);
      offsets := offsets + [offset];
      g := next;
    }
    RearrangedKeepsCounts(plan, result);
    AllGroupsShifted(plan, result, offsets);
  }

  method ShiftGroup(plan: Plan, mask: Mask, g: int, ghost next: int) returns (result: Mask, ghost shift: nat)
    requires Partitions(plan.ops, plan.keys, plan.groups) && 0 <= g < |plan.groups| && Rearranged(plan, mask, g)
    requires next == g + 1
    ensures Rearranged(plan, result, next) && OnlyGroup(mask, result, plan.groups[g])
    ensures IsShift(plan.ops, plan.groups[g], result, shift)
  {
    GroupFacts(plan, g);
    var indexes := plan.groups[g];
    if |indexes| == 1 {
      result, shift := mask[indexes[0] := plan.ops[indexes[0]].entered], 0;
      assert forall i :: 0 <= i < |mask| && i !in indexes ==> i != indexes[0];
    } else {
      var offset :| 1 <= offset < |indexes|;
      shift := offset;
      result := PlaceShifted(mask, plan.ops, indexes, offset);
    }
    RotatedKeepsBits(Local(plan.ops, indexes), shift);
    RearrangedStep(plan, mask, result, g, Rotated(Local(plan.ops, indexes), shift));
  }
}
