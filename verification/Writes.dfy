/** What each write to the store does, told by the rows before and after it. */
module Writes {
  import opened Wrappers
  import opened Orders
  import opened Evidence
  import opened Tables
  import opened TableLaws

  // ----- Rows -----

  predicate Stored<T(==)>(rows: seq<Row<T>>, item: T) {
    exists i :: 0 <= i < |rows| && rows[i].item == item
  }

  /** The item is stored once, for its session: what was stored is a prefix of what is stored now, and
      nothing else is new. */
  ghost predicate StoredOnce<T>(before: seq<Row<T>>, after: seq<Row<T>>, session: int, item: T, generation: int) {
    && (forall i, j :: 0 <= i < j < |after| && after[i].item == item ==> after[j].item != item)
    && (if Stored(before, item) then after == before
        else
          && |after| == |before| + 1 && after[..|before|] == before
          && after[|before|] == Row(session, item, generation))
  }

  /** The evidence of the session gained the item at its end, unless it was there. */
  predicate Gains<T(==)>(before: seq<T>, after: seq<T>, item: T) {
    if item in before then after == before else after == before + [item]
  }

  lemma GainedItems<T(!new)>(before: seq<Row<T>>, after: seq<Row<T>>, session: int, item: T, generation: int)
    requires StoredOnce(before, after, session, item, generation)
    requires forall r :: r in before && r.item == item ==> r.session == session
    ensures Gains(Items(Of(before, session)), Items(Of(after, session)), item)
    ensures item in Items(Of(after, session))
    ensures forall x :: x != session ==> Of(after, x) == Of(before, x)
  {
    if i :| 0 <= i < |before| && before[i].item == item {
      assert before[i] in before;
      StoredIsListed(before, session, before[i]);
    } else {
      var row := Row(session, item, generation);
      assert after == before + [row];
      forall x ensures Of(after, x) == Of(before, x) + (if x == session then [row] else []) {
        OfSnoc(before, row, x);
      }
      NotListed(before, session, item);
      var items := Items(Of(after, session));
      assert items == Items(Of(before, session)) + [item];
      assert items[|items| - 1] == item;
    }
  }

  lemma NotListed<T(!new)>(rows: seq<Row<T>>, session: int, item: T)
    requires !Stored(rows, item)
    ensures item !in Items(Of(rows, session))
  {
    if item in Items(Of(rows, session)) {
      ListedIsStored(rows, session, item);
    }
  }

  // ----- Snapshots -----

  lemma {:induction false} FoundSnapshot(rows: seq<Row<Snapshot>>, id: int)
    requires FindSnapshot(rows, id).Some?
    ensures FindSnapshot(rows, id).value in rows && FindSnapshot(rows, id).value.item.id == id
  {
    if rows[0].item.id != id {
      FoundSnapshot(rows[1..], id);
    }
  }

  /** A snapshot is accepted for a known session, unless its id is stored with other content. */
  predicate SnapshotAcceptable(t: Store, snapshot: Snapshot) {
    && snapshot.session in t.sessions
    && forall r :: r in t.snapshots && r.item.id == snapshot.id ==> r.item == snapshot
  }

  ghost predicate SnapshotStored(t: Store, u: Store, snapshot: Snapshot) {
    && u == t.(snapshots := u.snapshots)
    && StoredOnce(t.snapshots, u.snapshots, snapshot.session, snapshot,
                  |CheckpointsOf(t.checkpoints, snapshot.session)|)
    && Gains(Whole(t, snapshot.session).snapshots, Whole(u, snapshot.session).snapshots, snapshot)
    && snapshot in Whole(u, snapshot.session).snapshots
    && forall s :: s != snapshot.session ==> Whole(u, s) == Whole(t, s)
  }

  lemma SnapshotWritten(t: Store, snapshot: Snapshot)
    requires Coherent(t)
    ensures match AppendSnapshot(t, snapshot)
            case Success(u) => SnapshotAcceptable(t, snapshot) && SnapshotStored(t, u, snapshot)
            case Failure(e) =>
              && !SnapshotAcceptable(t, snapshot)
              && e == if snapshot.session in t.sessions then SnapshotConflict else SessionNotFound
  {
    assert SessionOk(t, snapshot.session);
    LatestIsCount(t, snapshot.session);
    var found := FindSnapshot(t.snapshots, snapshot.id);
    if found.Some? {
      FoundSnapshot(t.snapshots, snapshot.id);
    } else {
      FindSnapshotNone(t.snapshots, snapshot.id);
    }
    if AppendSnapshot(t, snapshot).Success? {
      AppendSnapshotSound(t, snapshot);
      SnapshotIsStored(t, AppendSnapshot(t, snapshot).value, snapshot,
                       |CheckpointsOf(t.checkpoints, snapshot.session)|);
    }
  }

  lemma SnapshotIsStored(t: Store, u: Store, snapshot: Snapshot, generation: int)
    requires KeysOk(t) && KeysOk(u) && u == t.(snapshots := u.snapshots)
    requires if Stored(t.snapshots, snapshot) then u.snapshots == t.snapshots
             else u.snapshots == t.snapshots + [Row(snapshot.session, snapshot, generation)]
    requires generation == |CheckpointsOf(t.checkpoints, snapshot.session)|
    ensures SnapshotStored(t, u, snapshot)
  {
    GainedItems(t.snapshots, u.snapshots, snapshot.session, snapshot, generation);
  }

  // ----- Bars -----

  lemma {:induction false} FoundMarket(rows: seq<Row<MarketBar>>, id: int)
    requires FindMarket(rows, id).Some?
    ensures FindMarket(rows, id).value in rows && FindMarket(rows, id).value.item.providerId == id
  {
    if rows[0].item.providerId != id {
      FoundMarket(rows[1..], id);
    }
  }

  /** A bar is accepted for a known session, unless its id is stored with other content or for another
      session. */
  predicate MarketAcceptable(t: Store, session: int, bar: MarketBar) {
    && session in t.sessions
    && forall r :: r in t.markets && r.item.providerId == bar.providerId ==> r.item == bar && r.session == session
  }

  ghost predicate MarketStored(t: Store, u: Store, session: int, bar: MarketBar) {
    && u == t.(markets := u.markets)
    && StoredOnce(t.markets, u.markets, session, bar, |CheckpointsOf(t.checkpoints, session)|)
    && Gains(Whole(t, session).markets, Whole(u, session).markets, bar)
    && bar in Whole(u, session).markets
    && forall s :: s != session ==> Whole(u, s) == Whole(t, s)
  }

  lemma MarketWritten(t: Store, session: int, bar: MarketBar)
    requires Coherent(t)
    ensures match AppendMarket(t, session, bar)
            case Success(u) => MarketAcceptable(t, session, bar) && MarketStored(t, u, session, bar)
            case Failure(e) =>
              && !MarketAcceptable(t, session, bar)
              && e == if session in t.sessions then ProviderEventMismatch else SessionNotFound
  {
    assert SessionOk(t, session);
    LatestIsCount(t, session);
    var found := FindMarket(t.markets, bar.providerId);
    if found.Some? {
      FoundMarket(t.markets, bar.providerId);
    } else {
      FindMarketNone(t.markets, bar.providerId);
    }
    if AppendMarket(t, session, bar).Success? {
      AppendMarketSound(t, session, bar);
      MarketIsStored(t, AppendMarket(t, session, bar).value, session, bar, |CheckpointsOf(t.checkpoints, session)|);
    }
  }

  lemma MarketIsStored(t: Store, u: Store, session: int, bar: MarketBar, generation: int)
    requires KeysOk(t) && KeysOk(u) && u == t.(markets := u.markets)
    requires forall r :: r in t.markets && r.item == bar ==> r.session == session
    requires if Stored(t.markets, bar) then u.markets == t.markets
             else u.markets == t.markets + [Row(session, bar, generation)]
    requires generation == |CheckpointsOf(t.checkpoints, session)|
    ensures MarketStored(t, u, session, bar)
  {
    GainedItems(t.markets, u.markets, session, bar, generation);
  }

  // ----- Submissions -----

  /** The order event agrees with its intent, its decision and the session. */
  predicate Fits(sessions: map<int, int>, s: int, intent: OrderIntent, decision: Decision, order: BrokerOrder) {
    && intent.run == s && s in sessions && sessions[s] == intent.date
    && decision.key == intent.key && decision.approved && order.clientId == intent.key
    && order.submittedAt >= intent.eligibleAt && decision.decidedAt <= order.submittedAt
    && order.symbol == intent.symbol && order.side == intent.side
    && order.orderType == intent.orderType && order.quantity == intent.quantity
  }

  /** Nothing stored contradicts this intent and decision. */
  predicate Agrees(t: Store, intent: OrderIntent, decision: Decision) {
    && (intent.key in t.intents ==> t.intents[intent.key] == intent)
    && (decision.key in t.decisions ==> t.decisions[decision.key] == decision)
  }

  /** Intent and decision are stored, the order event once for its session, and one checkpoint more. */
  ghost predicate SubmissionStored(t: Store, u: Store, s: int, intent: OrderIntent, decision: Decision,
                                   order: BrokerOrder) {
    && u.sessions == t.sessions && u.markets == t.markets && u.snapshots == t.snapshots
    && u.intents == t.intents[intent.key := intent] && u.decisions == t.decisions[decision.key := decision]
    && u.orders == (if Stored(t.orders, order) then t.orders
                    else t.orders + [Row(s, order, |CheckpointsOf(t.checkpoints, s)| + 1)])
    && Gains(Whole(t, s).orders, Whole(u, s).orders, order) && order in Whole(u, s).orders
    && |u.checkpoints| == |t.checkpoints| + 1 && u.checkpoints[..|t.checkpoints|] == t.checkpoints
    && var c := u.checkpoints[|t.checkpoints|];
       c.session == s && c.sequence == |CheckpointsOf(t.checkpoints, s)| + 1 && c.createdAt >= order.updatedAt
  }

  lemma BundleStores(t: Store, s: int, intent: OrderIntent, decision: Decision, order: BrokerOrder, c: Checkpoint)
    requires Coherent(t) && c.session == s && c.sequence == LatestSequence(t, s) + 1 && c.createdAt >= order.updatedAt
    requires c.id.sequence == c.sequence && c.id.digest.session == s
    ensures var r := RecordBundle(t, intent, decision, order, c);
            && (r.Success? <==> Fits(t.sessions, s, intent, decision, order) && Agrees(t, intent, decision))
            && (r.Success? ==>
                  && r.value.intents == t.intents[intent.key := intent]
                  && r.value.decisions == t.decisions[decision.key := decision])
  {
    if ValidBundle(intent, decision, order, c) && PutIntent(t, intent).Success? &&
       PutDecision(PutIntent(t, intent).value, decision).Success?
    {
      var v := StoredBeforeCheckpoint(t, s, intent, decision, order, c);
      CheckpointFitsAnyway(t, v, s, c);
    }
  }

  /** A submission is accepted exactly when its parts fit each other and the session and contradict
      nothing stored. */
  lemma SubmissionWritten(t: Store, s: int, origin: Origin, intent: OrderIntent, decision: Decision, order: BrokerOrder,
                          observedAt: int)
    requires Coherent(t)
    ensures var r := RecordSubmission(t, s, origin, intent, decision, order, observedAt);
            && (r.Success? <==> Fits(t.sessions, s, intent, decision, order) && Agrees(t, intent, decision))
            && (r.Success? ==> SubmissionStored(t, r.value, s, intent, decision, order))
  {
    var c := NextCheckpoint(t, s, origin, order, observedAt);
    assert SessionOk(t, s);
    LatestIsCount(t, s);
    BundleStores(t, s, intent, decision, order, c);
    SubmissionShape(t, s, origin, intent, decision, order, observedAt);
    var r := RecordSubmission(t, s, origin, intent, decision, order, observedAt);
    if r.Success? {
      RowsAreStored(t, r.value, s, intent, decision, order, c);
    }
  }

  lemma RowsAreStored(t: Store, u: Store, s: int, intent: OrderIntent, decision: Decision, order: BrokerOrder,
                      c: Checkpoint)
    requires KeysOk(t) && TableLaws.Submitted(t, u, s, order, c) && c.createdAt >= order.updatedAt
    requires c.session == s && c.sequence == |CheckpointsOf(t.checkpoints, s)| + 1
    requires u.intents == t.intents[intent.key := intent] && u.decisions == t.decisions[decision.key := decision]
    ensures SubmissionStored(t, u, s, intent, decision, order)
  {
    WholeAfter(t, u, s, order, c);
    KnownOrderIsOurs(t, u, s, order, c);
  }

  /** The checkpoint written is no older than what was observed and than the order event, and one of
      the two. */
  lemma CheckpointTime(t: Store, s: int, origin: Origin, order: BrokerOrder, observedAt: int)
    ensures var c := NextCheckpoint(t, s, origin, order, observedAt);
            && c.createdAt >= observedAt && c.createdAt >= order.updatedAt
            && (c.createdAt == observedAt || c.createdAt == order.updatedAt)
            && c.id == CheckpointId(origin, c.sequence, c.stateHash)
  {}

  // ----- Checkpoints -----

  lemma {:induction false} FoundCheckpoint(rows: seq<Checkpoint>, c: Checkpoint)
    requires FindCheckpoint(rows, c).Some?
    ensures FindCheckpoint(rows, c).value in rows && Rivals(FindCheckpoint(rows, c).value, c)
  {
    if rows[0].id != c.id && !(rows[0].session == c.session && rows[0].sequence == c.sequence) {
      FoundCheckpoint(rows[1..], c);
    }
  }

  lemma {:induction false} NoCheckpointFound(rows: seq<Checkpoint>, c: Checkpoint)
    requires FindCheckpoint(rows, c).None?
    ensures forall d :: d in rows ==> !Rivals(d, c)
  {
    if rows != [] {
      NoCheckpointFound(rows[1..], c);
    }
  }

  /** The two cannot both be stored, unless they are the same. */
  predicate Rivals(d: Checkpoint, c: Checkpoint) {
    d.id == c.id || (d.session == c.session && d.sequence == c.sequence)
  }

  lemma RivalsAreSame(t: Store, d: Checkpoint, c: Checkpoint)
    requires Coherent(t) && d in t.checkpoints && c in t.checkpoints && Rivals(d, c)
    ensures d == c
  {
    assert SessionOk(t, c.session);
    var cs := CheckpointsOf(t.checkpoints, c.session);
    CheckpointsOfMembers(t.checkpoints, c.session);
    assert d in cs && c in cs;
    var i :| 0 <= i < |cs| && cs[i] == d;
    var j :| 0 <= j < |cs| && cs[j] == c;
  }

  /** A checkpoint that is stored is left alone, one that rivals a stored one is a conflict, one out of
      turn a gap; only the next one of its session is stored. */
  lemma CheckpointWritten(t: Store, c: Checkpoint)
    requires Coherent(t)
    ensures PutCheckpoint(t, c) ==
            if c in t.checkpoints then Success(t)
            else if exists d :: d in t.checkpoints && Rivals(d, c) then Failure(CheckpointConflict)
            else if c.sequence != |CheckpointsOf(t.checkpoints, c.session)| + 1 then Failure(CheckpointGap)
            else Success(t.(checkpoints := t.checkpoints + [c]))
  {
    assert SessionOk(t, c.session);
    LatestIsCount(t, c.session);
    var found := FindCheckpoint(t.checkpoints, c);
    if found.Some? {
      FoundCheckpoint(t.checkpoints, c);
      if c in t.checkpoints {
        RivalsAreSame(t, found.value, c);
      }
    } else {
      NoCheckpointFound(t.checkpoints, c);
      assert c in t.checkpoints ==> Rivals(c, c);
    }
  }
}
