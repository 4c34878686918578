/** The whole-sequence scorer of the null tests: which entries of a mask are accepted, and that the
    bookkeeping with its pruned list of open positions decides exactly that. */
module NullScoring {
  import opened Orders
  import opened NullPlan
  import opened Counting

  const MINUTE := 60_000_000

  datatype Scoring = Scoring(cooldownMinutes: int, maxEntries: int, maxPositions: int) {
    predicate Valid() { 0 <= cooldownMinutes <= 1440 && maxEntries >= 1 && maxPositions >= 1 }

    function Cooldown(): int { cooldownMinutes * MINUTE }
  }

  ghost predicate ValidOps(ops: Opportunities) {
    forall i :: 0 <= i < |ops| ==> ops[i].Valid()
  }

  // ----- Evaluation order -----

  /** By entry time, session, symbol, signal time and id; equal ones keep their index order. */
  predicate NotAfter(a: Opportunity, b: Opportunity) {
    || a.entryAt < b.entryAt
    || (a.entryAt == b.entryAt &&
        (|| a.session < b.session
         || (a.session == b.session &&
             (|| FirstLetter(a.symbol) < FirstLetter(b.symbol)
              || (a.symbol == b.symbol &&
                  (|| a.signalAt < b.signalAt
                   || (a.signalAt == b.signalAt && a.id <= b.id)))))))
  }

  /** The order is decided by the first of entry time, session, symbol, signal time and id that differs. */
  lemma NotAfterMeans(a: Opportunity, b: Opportunity)
    ensures NotAfter(a, b) || NotAfter(b, a)
    ensures a.entryAt < b.entryAt ==> !NotAfter(b, a)
    ensures a.entryAt == b.entryAt && a.session < b.session ==> !NotAfter(b, a)
    ensures a.entryAt == b.entryAt && a.session == b.session && FirstLetter(a.symbol) < FirstLetter(b.symbol) ==>
              !NotAfter(b, a)
    ensures a.entryAt == b.entryAt && a.Key() == b.Key() && a.signalAt < b.signalAt ==> !NotAfter(b, a)
    ensures a.entryAt == b.entryAt && a.Key() == b.Key() && a.signalAt == b.signalAt ==>
              (NotAfter(a, b) <==> a.id <= b.id)
  {}

  type Indexes = seq<nat>

  predicate Within(ops: Opportunities, order: Indexes) {
    forall a :: 0 <= a < |order| ==> order[a] < |ops|
  }

  predicate InOrder(ops: Opportunities, order: Indexes)
    requires Within(ops, order)
  {
    forall a, b :: 0 <= a < b < |order| ==> NotAfter(ops[order[a]], ops[order[b]])
  }

  function Insert(ops: Opportunities, order: Indexes, i: nat): (r: Indexes)
    requires Within(ops, order) && i < |ops|
    ensures Within(ops, r) && |r| == |order| + 1
  {
    if order == [] || NotAfter(ops[order[|order| - 1]], ops[i]) then order + [i]
    else Insert(ops, order[..|order| - 1], i) + [order[|order| - 1]]
  }

  /** The first `n` indexes in evaluation order. */
  function Arranged(ops: Opportunities, n: nat): (r: Indexes)
    requires n <= |ops|
    ensures Within(ops, r) && |r| == n
  {
    if n == 0 then [] else Insert(ops, Arranged(ops, n - 1), n - 1)
  }

  function EvaluationOrder(ops: Opportunities): (r: Indexes)
    ensures Within(ops, r)
  {
    Arranged(ops, |ops|)
  }

  lemma {:induction false} InsertMembers(ops: Opportunities, order: Indexes, i: nat, x: nat)
    requires Within(ops, order) && i < |ops|
    ensures x in Insert(ops, order, i) <==> x in order || x == i
  {
    if order != [] && !NotAfter(ops[order[|order| - 1]], ops[i]) {
      InsertMembers(ops, order[..|order| - 1], i, x);
      assert order == order[..|order| - 1] + [order[|order| - 1]];
    }
  }

  lemma {:induction false} InsertInOrder(ops: Opportunities, order: Indexes, i: nat)
    requires Within(ops, order) && i < |ops| && InOrder(ops, order)
    ensures InOrder(ops, Insert(ops, order, i))
  {
    if order == [] {
    } else if NotAfter(ops[order[|order| - 1]], ops[i]) {
      assert forall a :: 0 <= a < |order| - 1 ==> NotAfter(ops[order[a]], ops[order[|order| - 1]]);
    } else {
      var front, last := order[..|order| - 1], order[|order| - 1];
      InsertInOrder(ops, front, i);
      var r := Insert(ops, front, i);
      forall a | 0 <= a < |r| ensures NotAfter(ops[r[a]], ops[last]) {
        InsertMembers(ops, front, i, r[a]);
        assert r[a] in r;
      }
    }
  }

  lemma {:induction false} ArrangedInOrder(ops: Opportunities, n: nat)
    requires n <= |ops|
    ensures InOrder(ops, Arranged(ops, n))
  {
    if n > 0 {
      ArrangedInOrder(ops, n - 1);
      InsertInOrder(ops, Arranged(ops, n - 1), n - 1);
    }
  }

  lemma {:induction false} SetAtInsert(ops: Opportunities, mask: Mask, order: Indexes, i: nat)
    requires Within(ops, order) && i < |ops| == |mask|
    ensures SetAt(mask, Insert(ops, order, i)) == SetAt(mask, order) + (if mask[i] then 1 else 0)
  {
    if order == [] || NotAfter(ops[order[|order| - 1]], ops[i]) {
      assert (order + [i])[..|order|] == order;
    } else {
      var front := order[..|order| - 1];
      SetAtInsert(ops, mask, front, i);
      var r := Insert(ops, front, i);
      assert (r + [order[|order| - 1]])[..|r|] == r;
    }
  }

  lemma NextArranged(ops: Opportunities, mask: Mask, n: nat, next: nat)
    requires next == n + 1 <= |ops| == |mask|
    ensures SetAt(mask, Arranged(ops, next)) == SetAt(mask, Arranged(ops, n)) + (if mask[n] then 1 else 0)
  {
    SetAtInsert(ops, mask, Arranged(ops, n), n);
  }

  /** Going through the evaluation order meets every set bit once. */
  lemma {:induction false} SetAlongOrder(ops: Opportunities, mask: Mask, n: nat)
    requires n <= |ops| == |mask|
    ensures SetAt(mask, Arranged(ops, n)) == SetIn(mask[..n])
  {
    if n > 0 {
      SetAlongOrder(ops, mask, n - 1);
      NextArranged(ops, mask, n - 1, n);
      SetInPrefix(mask, n - 1, n);
    }
  }

  lemma SetInPrefix(mask: Mask, n: nat, next: nat)
    requires next == n + 1 <= |mask|
    ensures SetIn(mask[..next]) == SetIn(mask[..n]) + (if mask[n] then 1 else 0)
  {
    assert mask[..next][..n] == mask[..n];
  }

  // ----- Which entries are accepted -----

  /** Accepted entries of a session. */
  function InSession(ops: Opportunities, accepted: Indexes, session: int): nat
    requires Within(ops, accepted)
  {
    if accepted == [] then 0
    else
      var last := accepted[|accepted| - 1];
      InSession(ops, accepted[..|accepted| - 1], session) + (if ops[last].session == session then 1 else 0)
  }

  /** Accepted entries whose exit is after `t`. */
  function ExitingAfter(ops: Opportunities, accepted: Indexes, t: int): nat
    requires Within(ops, accepted)
  {
    if accepted == [] then 0
    else
      var last := accepted[|accepted| - 1];
      ExitingAfter(ops, accepted[..|accepted| - 1], t) + (if ops[last].exitAt > t then 1 else 0)
  }

  /** Accepted positions open at the instant `t`. */
  function OpenAt(ops: Opportunities, accepted: Indexes, t: int): nat
    requires Within(ops, accepted)
  {
    if accepted == [] then 0
    else
      var last := accepted[|accepted| - 1];
      OpenAt(ops, accepted[..|accepted| - 1], t) + (if ops[last].entryAt <= t < ops[last].exitAt then 1 else 0)
  }

  /** The three counts are those of the accepted entries they speak of. */
  lemma {:induction false} AcceptedAreCounted(ops: Opportunities, accepted: Indexes, session: int, t: int)
    requires Within(ops, accepted)
    ensures InSession(ops, accepted, session) == |Chosen(|accepted|, a => Entered(ops, accepted, a, session))|
    ensures ExitingAfter(ops, accepted, t) == |Chosen(|accepted|, a => Exiting(ops, accepted, a, t))|
    ensures OpenAt(ops, accepted, t) == |Chosen(|accepted|, a => Open(ops, accepted, a, t))|
  {
    if accepted == [] {
      ChosenNone(a => Entered(ops, accepted, a, session));
      ChosenNone(a => Exiting(ops, accepted, a, t));
      ChosenNone(a => Open(ops, accepted, a, t));
    } else {
      var n := |accepted| - 1;
      var front := accepted[..n];
      AcceptedAreCounted(ops, front, session, t);
      ChosenNext(n, |accepted|, a => Entered(ops, front, a, session), a => Entered(ops, accepted, a, session));
      ChosenNext(n, |accepted|, a => Exiting(ops, front, a, t), a => Exiting(ops, accepted, a, t));
      ChosenNext(n, |accepted|, a => Open(ops, front, a, t), a => Open(ops, accepted, a, t));
    }
  }

  predicate Entered(ops: Opportunities, accepted: Indexes, a: int, session: int) {
    0 <= a < |accepted| && accepted[a] < |ops| && ops[accepted[a]].session == session
  }

  predicate Exiting(ops: Opportunities, accepted: Indexes, a: int, t: int) {
    0 <= a < |accepted| && accepted[a] < |ops| && t < ops[accepted[a]].exitAt
  }

  predicate Open(ops: Opportunities, accepted: Indexes, a: int, t: int) {
    0 <= a < |accepted| && accepted[a] < |ops| && ops[accepted[a]].entryAt <= t < ops[accepted[a]].exitAt
  }

  predicate Rested(ops: Opportunities, accepted: Indexes, i: nat, cooldown: int)
    requires Within(ops, accepted) && i < |ops|
  {
    forall a :: 0 <= a < |accepted| && ops[accepted[a]].Key() == ops[i].Key() ==>
      ops[accepted[a]].exitAt + cooldown <= ops[i].entryAt
  }

  /** Rested after every accepted entry of its symbol and session, room in the session, and a free
      position at its entry. */
  predicate Accepts(ops: Opportunities, accepted: Indexes, i: nat, scoring: Scoring)
    requires Within(ops, accepted) && i < |ops|
  {
    && Rested(ops, accepted, i, scoring.Cooldown())
    && InSession(ops, accepted, ops[i].session) < scoring.maxEntries
    && ExitingAfter(ops, accepted, ops[i].entryAt) < scoring.maxPositions
  }

  function Greedy(ops: Opportunities, order: Indexes, mask: Mask, scoring: Scoring): (accepted: Indexes)
    requires Within(ops, order) && |mask| == |ops|
    ensures Within(ops, accepted)
  {
    if order == [] then []
    else
      var before := Greedy(ops, order[..|order| - 1], mask, scoring);
      var i := order[|order| - 1];
      if mask[i] && Accepts(ops, before, i, scoring) then before + [i] else before
  }

  function Profit(ops: Opportunities, accepted: Indexes): real
    requires Within(ops, accepted)
  {
    if accepted == [] then 0.0
    else Profit(ops, accepted[..|accepted| - 1]) + ops[accepted[|accepted| - 1]].profit
  }

  /** The profit of accepted entries is their own profits, added up. */
  lemma {:induction false} ProfitAddsUp(ops: Opportunities, a: Indexes, b: Indexes, i: nat)
    requires Within(ops, a) && Within(ops, b) && i < |ops|
    ensures Profit(ops, [i]) == ops[i].profit
    ensures Profit(ops, a + b) == Profit(ops, a) + Profit(ops, b)
    decreases |b|
  {
    if b == [] {
      assert a + b == a;
    } else {
      ProfitAddsUp(ops, a, b[..|b| - 1], i);
      assert (a + b)[..|a + b| - 1] == a + b[..|b| - 1];
    }
  }

  // ----- What the accepted entries satisfy -----

  /** Entries of one symbol and session are separated by exit plus cooldown. */
  predicate Spaced(ops: Opportunities, accepted: Indexes, cooldown: int)
    requires Within(ops, accepted)
  {
    forall a, b :: 0 <= a < b < |accepted| && ops[accepted[a]].Key() == ops[accepted[b]].Key() ==>
      ops[accepted[a]].exitAt + cooldown <= ops[accepted[b]].entryAt
  }

  lemma {:induction false} GreedySpaced(ops: Opportunities, order: Indexes, mask: Mask, scoring: Scoring)
    requires Within(ops, order) && |mask| == |ops|
    ensures Spaced(ops, Greedy(ops, order, mask, scoring), scoring.cooldownMinutes * 60_000_000)
  {
    if order != [] {
      GreedySpaced(ops, order[..|order| - 1], mask, scoring);
    }
  }

  lemma {:induction false} GreedySessionCap(ops: Opportunities, order: Indexes, mask: Mask, scoring: Scoring,
                                            session: int)
    requires Within(ops, order) && |mask| == |ops| && scoring.Valid()
    ensures InSession(ops, Greedy(ops, order, mask, scoring), session) <= scoring.maxEntries
  {
    if order != [] {
      GreedySessionCap(ops, order[..|order| - 1], mask, scoring, session);
      var before, i := Greedy(ops, order[..|order| - 1], mask, scoring), order[|order| - 1];
      assert (before + [i])[..|before|] == before;
    }
  }

  lemma {:induction false} OpenAreExiting(ops: Opportunities, accepted: Indexes, t: int, entry: int)
    requires Within(ops, accepted) && entry <= t
    ensures OpenAt(ops, accepted, t) <= ExitingAfter(ops, accepted, entry)
  {
    if accepted != [] {
      OpenAreExiting(ops, accepted[..|accepted| - 1], t, entry);
    }
  }

  /** At no instant are more than `maxPositions` open. */
  lemma {:induction false} GreedyConcurrency(ops: Opportunities, order: Indexes, mask: Mask, scoring: Scoring, t: int)
    requires Within(ops, order) && |mask| == |ops| && scoring.Valid()
    ensures OpenAt(ops, Greedy(ops, order, mask, scoring), t) <= scoring.maxPositions
  {
    if order != [] {
      GreedyConcurrency(ops, order[..|order| - 1], mask, scoring, t);
      var before, i := Greedy(ops, order[..|order| - 1], mask, scoring), order[|order| - 1];
      assert (before + [i])[..|before|] == before;
      if ops[i].entryAt <= t {
        OpenAreExiting(ops, before, t, ops[i].entryAt);
      }
    }
  }

  /** Why an entry was turned away, by entries accepted before it. */
  predicate Refused(ops: Opportunities, earlier: Indexes, i: nat, scoring: Scoring)
    requires Within(ops, earlier) && i < |ops|
  {
    || (exists a :: 0 <= a < |earlier| && ops[earlier[a]].Key() == ops[i].Key() &&
                    ops[i].entryAt < ops[earlier[a]].exitAt + scoring.Cooldown())
    || InSession(ops, earlier, ops[i].session) == scoring.maxEntries
    || ExitingAfter(ops, earlier, ops[i].entryAt) >= scoring.maxPositions
  }

  lemma {:induction false} GreedyGrows(ops: Opportunities, order: Indexes, mask: Mask, scoring: Scoring, n: nat)
    requires Within(ops, order) && |mask| == |ops| && n <= |order|
    ensures var shorter, longer := Greedy(ops, order[..n], mask, scoring), Greedy(ops, order, mask, scoring);
            |shorter| <= |longer| && longer[..|shorter|] == shorter
    decreases |order|
  {
    if n < |order| {
      GreedyGrows(ops, order[..|order| - 1], mask, scoring, n);
      assert order[..|order| - 1][..n] == order[..n];
    } else {
      assert order[..n] == order;
    }
  }

  /** Every entry of the mask is either accepted or refused because of accepted ones before it. */
  lemma EveryRejectionHasAWitness(ops: Opportunities, order: Indexes, mask: Mask, scoring: Scoring, n: nat)
    requires Within(ops, order) && |mask| == |ops| && scoring.Valid() && n < |order| && mask[order[n]]
    ensures var accepted := Greedy(ops, order, mask, scoring);
            var earlier := Greedy(ops, order[..n], mask, scoring);
            && |earlier| <= |accepted| && accepted[..|earlier|] == earlier
            && ((|earlier| < |accepted| && accepted[|earlier|] == order[n] &&
                 Accepts(ops, earlier, order[n], scoring)) ||
                Refused(ops, earlier, order[n], scoring))
  {
    GreedyGrows(ops, order, mask, scoring, n);
    GreedyGrows(ops, order, mask, scoring, n + 1);
    assert order[..n + 1][..n] == order[..n];
    GreedySessionCap(ops, order[..n], mask, scoring, ops[order[n]].session);
    var earlier, next := Greedy(ops, order[..n], mask, scoring), Greedy(ops, order[..n + 1], mask, scoring);
    assert next == if Accepts(ops, earlier, order[n], scoring) then earlier + [order[n]] else earlier;
    var accepted := Greedy(ops, order, mask, scoring);
    assert |next| <= |accepted| && accepted[..|next|] == next;
    if Accepts(ops, earlier, order[n], scoring) {
      assert accepted[|earlier|] == next[|earlier|];
    }
  }

  // ----- The scorer -----

  type OpenPositions = seq<(int, Symbol, int)>

  function LeftAfter(active: OpenPositions, t: int): OpenPositions {
    if active == [] then []
    else
      var last := active[|active| - 1];
      LeftAfter(active[..|active| - 1], t) + (if last.0 > t then [last] else [])
  }

  lemma {:induction false} LeftTwice(active: OpenPositions, t: int, u: int)
    requires t <= u
    ensures LeftAfter(LeftAfter(active, t), u) == LeftAfter(active, u)
  {
    if active != [] {
      LeftTwice(active[..|active| - 1], t, u);
      var front, last := LeftAfter(active[..|active| - 1], t), active[|active| - 1];
      if last.0 > t {
        assert (front + [last])[..|front|] == front;
      } else {
        assert LeftAfter(active, t) == front;
      }
    }
  }

  /** The counters and the last exits describe the accepted entries. */
  ghost predicate Books(ops: Opportunities, accepted: Indexes, counts: map<int, nat>, lastExit: map<(Symbol, int), int>)
    requires Within(ops, accepted)
  {
    && (forall d :: (if d in counts then counts[d] else 0) == InSession(ops, accepted, d))
    && (forall a :: 0 <= a < |accepted| ==>
          ops[accepted[a]].Key() in lastExit && ops[accepted[a]].exitAt <= lastExit[ops[accepted[a]].Key()])
    && (forall k :: k in lastExit ==>
          exists a :: 0 <= a < |accepted| && ops[accepted[a]].Key() == k && ops[accepted[a]].exitAt == lastExit[k])
  }

  /** From `t` on, the pruned list and the accepted entries have as many positions left. */
  ghost predicate Tracks(ops: Opportunities, accepted: Indexes, active: OpenPositions, t: int)
    requires Within(ops, accepted)
  {
    forall u :: t <= u ==> |LeftAfter(active, u)| == ExitingAfter(ops, accepted, u)
  }

  lemma PruneTracks(ops: Opportunities, accepted: Indexes, active: OpenPositions, t: int, u: int)
    requires Within(ops, accepted) && Tracks(ops, accepted, active, t) && t <= u
    ensures Tracks(ops, accepted, LeftAfter(active, u), u)
    ensures |LeftAfter(active, u)| == ExitingAfter(ops, accepted, u)
  {
    forall v | u <= v ensures |LeftAfter(LeftAfter(active, u), v)| == ExitingAfter(ops, accepted, v) {
      LeftTwice(active, u, v);
    }
  }

  lemma AcceptTracks(ops: Opportunities, accepted: Indexes, active: OpenPositions, t: int, i: nat)
    requires Within(ops, accepted) && i < |ops| && Tracks(ops, accepted, active, t)
    ensures Tracks(ops, accepted + [i], active + [(ops[i].exitAt, ops[i].symbol, ops[i].session)], t)
  {
    var position := (ops[i].exitAt, ops[i].symbol, ops[i].session);
    assert (accepted + [i])[..|accepted|] == accepted && (active + [position])[..|active|] == active;
    forall u | t <= u ensures |LeftAfter(active + [position], u)| == ExitingAfter(ops, accepted + [i], u) {
      assert |LeftAfter(active, u)| == ExitingAfter(ops, accepted, u);
    }
  }

  /** The last exit of the symbol and session decides whether the entry is rested. */
  lemma LastExitDecides(ops: Opportunities, accepted: Indexes, counts: map<int, nat>, lastExit: map<(Symbol, int), int>,
                        i: nat, cooldown: int)
    requires Within(ops, accepted) && i < |ops| && Books(ops, accepted, counts, lastExit)
    ensures Rested(ops, accepted, i, cooldown) <==>
            (ops[i].Key() in lastExit ==> lastExit[ops[i].Key()] + cooldown <= ops[i].entryAt)
  {}

  lemma AcceptBooks(ops: Opportunities, accepted: Indexes, counts: map<int, nat>, lastExit: map<(Symbol, int), int>,
                    i: nat, cooldown: int)
    requires Within(ops, accepted) && i < |ops| && ops[i].Valid() && Books(ops, accepted, counts, lastExit)
    requires Rested(ops, accepted, i, cooldown) && cooldown >= 0
    ensures var d := ops[i].session;
            Books(ops, accepted + [i], counts[d := (if d in counts then counts[d] else 0) + 1],
                  lastExit[ops[i].Key() := ops[i].exitAt])
  {
    var more := accepted + [i];
    assert more[..|accepted|] == accepted;
    var after := lastExit[ops[i].Key() := ops[i].exitAt];
    forall k | k in after
      ensures exists a :: 0 <= a < |more| && ops[more[a]].Key() == k && ops[more[a]].exitAt == after[k]
    {
      if k == ops[i].Key() {
        assert more[|accepted|] == i;
      } else {
        var a :| 0 <= a < |accepted| && ops[accepted[a]].Key() == k && ops[accepted[a]].exitAt == lastExit[k];
        assert more[a] == accepted[a];
      }
    }
  }

  /** What the scorer keeps while it goes through the entries. */
  datatype Tally =
    Tally(profit: real, accepted: nat, rejected: nat, counts: map<int, nat>, lastExit: map<(Symbol, int), int>,
          active: OpenPositions)

  /** The state of the scorer after `n` indexes; `now` is no later than what is still to come. */
  ghost predicate Scored(ops: Opportunities, order: Indexes, mask: Mask, scoring: Scoring, n: nat, entries: Indexes,
                         t: Tally, now: int)
    requires Within(ops, order) && |mask| == |ops| && n <= |order|
  {
    && entries == Greedy(ops, order[..n], mask, scoring)
    && t.profit == Profit(ops, entries)
    && t.accepted == |entries|
    && t.accepted + t.rejected == SetAt(mask, order[..n])
    && Books(ops, entries, t.counts, t.lastExit)
    && Tracks(ops, entries, t.active, now)
    && (forall b :: n <= b < |order| ==> now <= ops[order[b]].entryAt)
  }

  function Counted(counts: map<int, nat>, session: int): nat {
    if session in counts then counts[session] else 0
  }

  /** One more entry is accepted. */
  function Took(t: Tally, o: Opportunity): Tally {
    Tally(t.profit + o.profit, t.accepted + 1, t.rejected, t.counts[o.session := Counted(t.counts, o.session) + 1],
          t.lastExit[o.Key() := o.exitAt], t.active + [(o.exitAt, o.symbol, o.session)])
  }

  lemma Decides(ops: Opportunities, order: Indexes, mask: Mask, scoring: Scoring, n: nat, entries: Indexes, t: Tally,
                now: int)
    requires Within(ops, order) && |mask| == |ops| && n < |order| && InOrder(ops, order)
    requires Scored(ops, order, mask, scoring, n, entries, t, now)
    ensures var o := ops[order[n]];
            var left := LeftAfter(t.active, o.entryAt);
            && Scored(ops, order, mask, scoring, n, entries, t.(active := left), o.entryAt)
            && (Accepts(ops, entries, order[n], scoring) <==>
                && (o.Key() in t.lastExit ==> t.lastExit[o.Key()] + scoring.Cooldown() <= o.entryAt)
                && Counted(t.counts, o.session) < scoring.maxEntries
                && |left| < scoring.maxPositions)
  {
    var i := order[n];
    PruneTracks(ops, entries, t.active, now, ops[i].entryAt);
    LastExitDecides(ops, entries, t.counts, t.lastExit, i, scoring.Cooldown());
    assert forall b :: n < b < |order| ==> NotAfter(ops[i], ops[order[b]]);
  }

  lemma PassesOver(ops: Opportunities, order: Indexes, mask: Mask, scoring: Scoring, n: nat, next: nat,
                   entries: Indexes, t: Tally, now: int)
    requires Within(ops, order) && |mask| == |ops| && n < |order| && next == n + 1
    requires Scored(ops, order, mask, scoring, n, entries, t, now)
    requires !mask[order[n]] || !Accepts(ops, entries, order[n], scoring)
    ensures !mask[order[n]] ==> Scored(ops, order, mask, scoring, next, entries, t, now)
    ensures mask[order[n]] ==> Scored(ops, order, mask, scoring, next, entries, t.(rejected := t.rejected + 1), now)
  {
    assert order[..next][..n] == order[..n];
  }

  lemma TakesIn(ops: Opportunities, order: Indexes, mask: Mask, scoring: Scoring, n: nat, next: nat, entries: Indexes,
                t: Tally, now: int)
    requires ValidOps(ops) && scoring.Valid()
    requires Within(ops, order) && |mask| == |ops| && n < |order| && next == n + 1
    requires Scored(ops, order, mask, scoring, n, entries, t, now)
    requires mask[order[n]] && Accepts(ops, entries, order[n], scoring)
    ensures var o := ops[order[n]];
            Scored(ops, order, mask, scoring, next, entries + [order[n]], Took(t, o), now)
  {
    var i := order[n];
    TakesCounts(ops, order, mask, scoring, n, next, entries);
    AcceptBooks(ops, entries, t.counts, t.lastExit, i, scoring.Cooldown());
    AcceptTracks(ops, entries, t.active, now, i);
  }

  lemma TakesCounts(ops: Opportunities, order: Indexes, mask: Mask, scoring: Scoring, n: nat, next: nat,
                    entries: Indexes)
    requires Within(ops, order) && |mask| == |ops| && n < |order| && next == n + 1
    requires entries == Greedy(ops, order[..n], mask, scoring) && mask[order[n]] &&
             Accepts(ops, entries, order[n], scoring)
    ensures Greedy(ops, order[..next], mask, scoring) == entries + [order[n]]
    ensures Profit(ops, entries + [order[n]]) == Profit(ops, entries) + ops[order[n]].profit
    ensures SetAt(mask, order[..next]) == SetAt(mask, order[..n]) + 1
  {
    assert order[..next][..n] == order[..n];
    assert (entries + [order[n]])[..|entries|] == entries;
  }

  lemma ScoredAll(ops: Opportunities, order: Indexes, mask: Mask, scoring: Scoring, entries: Indexes, t: Tally,
                  now: int)
    requires order == EvaluationOrder(ops) && |mask| == |ops|
    requires Scored(ops, order, mask, scoring, |order|, entries, t, now)
    ensures entries == Greedy(ops, order, mask, scoring) && t.accepted + t.rejected == SetIn(mask)
  {
    assert order[..|order|] == order;
    SetAlongOrder(ops, mask, |ops|);
    assert mask[..|ops|] == mask;
  }

  lemma ScoredNone(ops: Opportunities, order: Indexes, mask: Mask, scoring: Scoring) returns (now: int)
    requires Within(ops, order) && |mask| == |ops| && InOrder(ops, order)
    ensures Scored(ops, order, mask, scoring, 0, [], Tally(0.0, 0, 0, map[], map[], []), now)
  {
    now := if order == [] then 0 else ops[order[0]].entryAt;
    assert forall b :: 0 < b < |order| ==> NotAfter(ops[order[0]], ops[order[b]]);
  }

  /** The scorer accepts exactly what the rule accepts, and every set bit is accepted or rejected. */
  method ScoreSequence(ops: Opportunities, mask: Mask, scoring: Scoring)
    returns (profit: real, accepted: nat, rejected: nat)
    requires ValidOps(ops) && |mask| == |ops| && scoring.Valid()
    ensures var entries := Greedy(ops, EvaluationOrder(ops), mask, scoring);
            profit == Profit(ops, entries) && accepted == |entries|
    ensures accepted + rejected == SetIn(mask)
  {
    var order := EvaluationOrder(ops);
    var t := Tally(0.0, 0, 0, map[], map[], []);
    ghost var entries: Indexes := [];
    ArrangedInOrder(ops, |ops|);
    ghost var now := ScoredNone(ops, order, mask, scoring);
    var n := 0;
    while n != |order|
      invariant 0 <= n <= |order| && Scored(ops, order, mask, scoring, n, entries, t, now)
      decreases |order| - n
    {
      var i, next := order[n], n + 1;
      if !mask[i] {
        PassesOver(ops, order, mask, scoring, n, next, entries, t, now);
        n := next;
        continue;
      }
      var o := ops[i];
      Decides(ops, order, mask, scoring, n, entries, t, now);
      t := t.(active := LeftAfter(t.active, o.entryAt));
      now := o.entryAt;
      var overlapsHolding := o.Key() in t.lastExit && o.entryAt < t.lastExit[o.Key()];
      var violatesCooldown := o.Key() in t.lastExit && o.entryAt < t.lastExit[o.Key()] + scoring.Cooldown();
      var exceedsEntries := Counted(t.counts, o.session) >= scoring.maxEntries;
      if overlapsHolding || violatesCooldown || exceedsEntries || |t.active| >= scoring.maxPositions {
        PassesOver(ops, order, mask, scoring, n, next, entries, t, now);
        t := t.(rejected := t.rejected + 1);
        n := next;
        continue;
      }
      TakesIn(ops, order, mask, scoring, n, next, entries, t, now);
      t := Took(t, o);
      entries := entries + [i];
      n := next;
    }
    ScoredAll(ops, order, mask, scoring, entries, t, now);
    return t.profit, t.accepted, t.rejected;
  }
}
