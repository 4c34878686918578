/** The append-only paper store, the submissions written to it and the recovery read from it. */
module PaperStores {
  import opened Wrappers
  import opened Evidence
  import opened Replay
  import opened Resumption
  import opened Recovering
  import opened Tables
  import opened TableLaws
  import opened Writes

  /** A transaction commits all of its step or nothing, and a storage fault closes the circuit. */
  ghost predicate Transacted(before: Store, closed: bool, step: Written, fault: bool, r: Result<(), StoreError>,
                             after: Store, disabled: bool)
  {
    if closed then r == Failure(CircuitOpen) && after == before && disabled
    else
      match step
      case Failure(e) => r == Failure(e) && after == before && !disabled
      case Success(t) =>
        if fault then r == Failure(StorageFault) && after == before && disabled
        else r == Success(()) && after == t && !disabled
  }

  /** A write that raises changes nothing, a closed circuit refuses every write, and exactly a storage
      fault closes it. */
  ghost predicate AllOrNothing(before: Store, closed: bool, r: Result<(), StoreError>, after: Store, disabled: bool) {
    && (r.Failure? ==> after == before)
    && (closed ==> r == Failure(CircuitOpen))
    && (disabled <==> closed || r == Failure(StorageFault))
  }

  class PaperStore {
    var tables: Store
    var entryWritesDisabled: bool

    constructor (sessions: map<int, int>)
      ensures tables == Store(sessions, map[], map[], [], [], [], []) && !entryWritesDisabled
      ensures Coherent(tables) && forall s :: Reproducible(tables, s)
    {
      tables := Store(sessions, map[], map[], [], [], [], []);
      entryWritesDisabled := false;
      EmptyIsSound(sessions);
    }

    /** COMMIT, or ROLLBACK to `saved` when the step raised or the storage fails. */
    method Commit(saved: Store, step: Result<(), StoreError>, fault: bool) returns (r: Result<(), StoreError>)
      modifies this
      ensures entryWritesDisabled == (old(entryWritesDisabled) || (step.Success? && fault))
      ensures tables == if step.Success? && !fault then old(tables) else saved
      ensures r == if step.Success? && fault then Failure(StorageFault) else step
    {
      r := step;
      if step.Success? && fault {
        entryWritesDisabled := true;
        r := Failure(StorageFault);
      }
      if r.Failure? { tables := saved; }
    }

    method AppendMarketEvent(session: int, bar: MarketBar, fault: bool) returns (r: Result<(), StoreError>)
      modifies this
      ensures Transacted(old(tables), old(entryWritesDisabled), AppendMarket(old(tables), session, bar), fault, r,
                         tables, entryWritesDisabled)
      ensures old(Coherent(tables)) ==>
                Coherent(tables) && forall s :: Reproducible(tables, s) <==> old(Reproducible(tables, s))
      ensures AllOrNothing(old(tables), old(entryWritesDisabled), r, tables, entryWritesDisabled)
      ensures old(Coherent(tables)) ==>
                && (r.Success? <==> MarketAcceptable(old(tables), session, bar) && !old(entryWritesDisabled) && !fault)
                && (r.Success? ==> MarketStored(old(tables), tables, session, bar))
    {
      ghost var before := tables;
      if Coherent(tables) {
        AppendMarketSound(tables, session, bar);
        MarketWritten(before, session, bar);
        forall s { AppendMarketReproducible(before, session, bar, s); }
      }
      if entryWritesDisabled { return Failure(CircuitOpen); }
      if session !in tables.sessions { return Failure(SessionNotFound); }
      var row := FindMarket(tables.markets, bar.providerId);
      if row.Some? && (row.value.session != session || row.value.item != bar) { return Failure(ProviderEventMismatch); }
      var saved := tables;
      if row.None? {
        tables := tables.(markets := tables.markets + [Row(session, bar, LatestSequence(tables, session))]);
      }
      r := Commit(saved, Success(()), fault);
    }

    method AppendPositionSnapshot(snapshot: Snapshot, fault: bool) returns (r: Result<(), StoreError>)
      modifies this
      ensures Transacted(old(tables), old(entryWritesDisabled), AppendSnapshot(old(tables), snapshot), fault, r,
                         tables, entryWritesDisabled)
      ensures old(Coherent(tables)) ==>
                Coherent(tables) && forall s :: Reproducible(tables, s) <==> old(Reproducible(tables, s))
      ensures AllOrNothing(old(tables), old(entryWritesDisabled), r, tables, entryWritesDisabled)
      ensures old(Coherent(tables)) ==>
                && (r.Success? <==> SnapshotAcceptable(old(tables), snapshot) && !old(entryWritesDisabled) && !fault)
                && (r.Success? ==> SnapshotStored(old(tables), tables, snapshot))
    {
      ghost var before := tables;
      if Coherent(tables) {
        AppendSnapshotSound(tables, snapshot);
        SnapshotWritten(before, snapshot);
        forall s { AppendSnapshotReproducible(before, snapshot, s); }
      }
      if entryWritesDisabled { return Failure(CircuitOpen); }
      if snapshot.session !in tables.sessions { return Failure(SessionNotFound); }
      var row := FindSnapshot(tables.snapshots, snapshot.id);
      if row.Some? && row.value.item != snapshot { return Failure(SnapshotConflict); }
      var saved := tables;
      if row.None? {
        var row := Row(snapshot.session, snapshot, LatestSequence(tables, snapshot.session));
        tables := tables.(snapshots := tables.snapshots + [row]);
      }
      r := Commit(saved, Success(()), fault);
    }

    method InsertOrVerifyIntent(intent: OrderIntent) returns (r: Result<(), StoreError>)
      modifies this`tables
      ensures match PutIntent(old(tables), intent)
              case Success(t) => r == Success(()) && tables == t
              case Failure(e) => r == Failure(e)
    {
      if intent.key in tables.intents {
        return if tables.intents[intent.key] != intent then Failure(IntentMismatch) else Success(());
      }
      tables := tables.(intents := tables.intents[intent.key := intent]);
      return Success(());
    }

    method InsertOrVerifyDecision(decision: Decision) returns (r: Result<(), StoreError>)
      modifies this`tables
      ensures match PutDecision(old(tables), decision)
              case Success(t) => r == Success(()) && tables == t
              case Failure(e) => r == Failure(e)
    {
      if decision.key in tables.decisions {
        return if tables.decisions[decision.key] != decision then Failure(DecisionMismatch) else Success(());
      }
      tables := tables.(decisions := tables.decisions[decision.key := decision]);
      return Success(());
    }

    method InsertOrVerifyOrderEvent(session: int, order: BrokerOrder, sequence: int)
      modifies this`tables
      ensures tables == PutOrder(old(tables), session, order, sequence)
    {
      if !HasOrder(tables.orders, order) {
        tables := tables.(orders := tables.orders + [Row(session, order, sequence)]);
      }
    }

    method InsertOrVerifyCheckpoint(checkpoint: Checkpoint) returns (r: Result<(), StoreError>)
      modifies this`tables
      ensures match PutCheckpoint(old(tables), checkpoint)
              case Success(t) => r == Success(()) && tables == t
              case Failure(e) => r == Failure(e)
    {
      var row := FindCheckpoint(tables.checkpoints, checkpoint);
      if row.Some? {
        return if row.value != checkpoint then Failure(CheckpointConflict) else Success(());
      }
      if checkpoint.sequence != LatestSequence(tables, checkpoint.session) + 1 { return Failure(CheckpointGap); }
      tables := tables.(checkpoints := tables.checkpoints + [checkpoint]);
      return Success(());
    }

    /** The four inserts of a bundle, one after the other, inside one transaction. */
    method RecordOrderBundle(intent: OrderIntent, decision: Decision, order: BrokerOrder, checkpoint: Checkpoint,
                             fault: bool)
      returns (r: Result<(), StoreError>)
      modifies this
      ensures if ValidBundle(intent, decision, order, checkpoint) then
                Transacted(old(tables), old(entryWritesDisabled),
                           RecordBundle(old(tables), intent, decision, order, checkpoint), fault, r,
                           tables, entryWritesDisabled)
              else
                r == Failure(InvalidBundle) && tables == old(tables) && entryWritesDisabled == old(entryWritesDisabled)
    {
      if !ValidBundle(intent, decision, order, checkpoint) { return Failure(InvalidBundle); }
      if entryWritesDisabled { return Failure(CircuitOpen); }
      if intent.run !in tables.sessions { return Failure(SessionNotFound); }
      if tables.sessions[intent.run] != intent.date { return Failure(SessionDateMismatch); }
      var saved := tables;
      r := InsertOrVerifyIntent(intent);
      if r.Success? { r := InsertOrVerifyDecision(decision); }
      if r.Success? {
        InsertOrVerifyOrderEvent(intent.run, order, checkpoint.sequence);
        r := InsertOrVerifyCheckpoint(checkpoint);
      }
      r := Commit(saved, r, fault);
    }
  }
  // ----- Submissions of a paper session -----

  class PaperSession {
    const store: PaperStore
    const id: int
    const origin: Origin

    constructor (store: PaperStore, id: int, origin: Origin)
      ensures this.store == store && this.id == id && this.origin == origin
    {
      this.store := store;
      this.id := id;
      this.origin := origin;
    }

    /** Replay everything with the new order, write it with a checkpoint of that state.  The
        checkpoint never conflicts and never leaves a gap, and the checkpoints stay reproducible
        exactly when the order is new or harmless. */
    method RecordSubmission(intent: OrderIntent, decision: Decision, order: BrokerOrder, observedAt: int, fault: bool)
      returns (r: Result<(), StoreError>)
      requires Coherent(store.tables)
      modifies store
      ensures Coherent(store.tables)
      ensures r.Failure? ==> store.tables == old(store.tables)
      ensures r.Success? ==>
                Tables.RecordSubmission(old(store.tables), id, origin, intent, decision, order, observedAt) ==
                Success(store.tables)
      ensures r.Success? ==> forall s ::
                Reproducible(store.tables, s) <==>
                old(Reproducible(store.tables, s)) && (s == id ==> Harmless(old(Whole(store.tables, id)), order))
      ensures r.Failure? ==> r.error != CheckpointConflict && r.error != CheckpointGap
      ensures r.Success? <==>
                && Fits(old(store.tables).sessions, id, intent, decision, order)
                && Agrees(old(store.tables), intent, decision) && !old(store.entryWritesDisabled) && !fault
      ensures r.Success? ==> SubmissionStored(old(store.tables), store.tables, id, intent, decision, order)
    {
      ghost var before := store.tables;
      var evidence := WithOrder(Whole(store.tables, id), order);
      var state := ApplyEvents(None, Events(evidence));
      var digest := Sha256(id, state);
      var latest := LatestCheckpoint(store.tables, id);
      var sequence := if latest.None? then 1 else latest.value.sequence + 1;
      var checkpoint := Checkpoint(CheckpointId(origin, sequence, digest), id, sequence, digest,
                                   if observedAt < order.updatedAt then order.updatedAt else observedAt);
      assert checkpoint == NextCheckpoint(before, id, origin, order, observedAt);
      SubmissionShape(before, id, origin, intent, decision, order, observedAt);
      SubmissionSound(before, id, origin, intent, decision, order, observedAt);
      SubmissionWritten(before, id, origin, intent, decision, order, observedAt);
      forall s { SubmissionReproducible(before, id, origin, intent, decision, order, observedAt, s); }
      r := store.RecordOrderBundle(intent, decision, order, checkpoint, fault);
    }
  }

  // ----- Recovery -----

  datatype RecoveryError = StateHashMismatch | ResumedStateDiffers

  datatype Recovery = Recovery(state: Recovered, resumedFrom: Option<CheckpointId>, replayed: nat)

  /** Recover from the newest checkpoint and compare with a clean replay.  The hash is refused exactly
      when the newest checkpoint cannot be reproduced from its filters; beyond that, recovery succeeds
      exactly when no evidence came too late. */
  method RecoverSession(tables: Store, s: int) returns (r: Result<Recovery, RecoveryError>)
    ensures r.Success? ==> r.value.state == Clean(Whole(tables, s))
    ensures r.Success? ==>
              var latest := LatestCheckpoint(tables, s);
              var replayed := if latest.Some? then After(tables, s, latest.value.sequence) else Whole(tables, s);
              && r.value.resumedFrom == (if latest.Some? then Some(latest.value.id) else None)
              && r.value.replayed == |replayed.markets| + |replayed.orders| + |replayed.snapshots|
    ensures LatestCheckpoint(tables, s).None? <==> CheckpointsOf(tables.checkpoints, s) == []
    ensures r == Failure(StateHashMismatch) <==> !NewestReproducible(tables, s)
    ensures Coherent(tables) ==>
              var latest := LatestCheckpoint(tables, s);
              (r.Success? <==>
                 && NewestReproducible(tables, s)
                 && (latest.Some? ==>
                       Timely(Before(tables, s, latest.value.sequence), After(tables, s, latest.value.sequence))))
  {
    var markets := Of(tables.markets, s);
    var orders := Of(tables.orders, s);
    var snapshots := Of(tables.snapshots, s);
    var events := Events(Ledger(Items(markets), Items(orders), Items(snapshots)));
    var clean := ApplyEvents(None, events);
    assert clean == Clean(Whole(tables, s));
    var latest := LatestCheckpoint(tables, s);
    NoCheckpoint(tables, s);
    SortedMembers(Rows(Whole(tables, s)));
    if latest.None? { return Success(Recovery(clean, None, |events|)); }
    var n := latest.value.sequence;
    var prefixEvents := Events(Ledger(Items(Below(markets, n)), Items(Below(orders, n + 1)),
                                      Items(Below(snapshots, n))));
    var prefix := ApplyEvents(None, prefixEvents);
    assert prefix == Clean(Before(tables, s, n));
    if Sha256(s, prefix) != latest.value.stateHash { return Failure(StateHashMismatch); }
    if Coherent(tables) {
      assert SessionOk(tables, s);
      FiltersAreExact(tables, s, n);
      WholeHasUniqueIds(tables, s);
      ResumingEqualsReplayingIff(Before(tables, s, n), After(tables, s, n));
    }
    var laterEvents := Events(Ledger(Items(From(markets, n)), Items(From(orders, n + 1)), Items(From(snapshots, n))));
    SortedMembers(Rows(After(tables, s, n)));
    var resumed := ApplyEvents(Some(prefix), laterEvents);
    assert resumed == Resumed(Before(tables, s, n), After(tables, s, n));
    if Sha256(s, resumed) != Sha256(s, clean) { return Failure(ResumedStateDiffers); }
    return Success(Recovery(resumed, Some(latest.value.id), |laterEvents|));
  }

  lemma NoCheckpoint(tables: Store, s: int)
    ensures LatestCheckpoint(tables, s).None? <==> CheckpointsOf(tables.checkpoints, s) == []
  {}

  /** A bar stored after a checkpoint that sorts before one stored behind it: the store stays
      coherent, yet recovery from that checkpoint fails. */
  lemma LateBarBreaksRecovery(t: Store, s: int, bar: MarketBar, earlier: MarketBar)
    requires Coherent(t) && s in t.sessions && FindMarket(t.markets, bar.providerId).None?
    requires LatestCheckpoint(t, s).Some? && earlier in Before(t, s, LatestSequence(t, s)).markets
    requires !Leq(MarketEvent(earlier), MarketEvent(bar))
    ensures var r := AppendMarket(t, s, bar);
            var n := LatestSequence(t, s);
            && r.Success? && Coherent(r.value) && LatestCheckpoint(r.value, s) == LatestCheckpoint(t, s)
            && !Timely(Before(r.value, s, n), After(r.value, s, n))
  {
    var n := LatestSequence(t, s);
    var row := Row(s, bar, n);
    var u := AppendMarket(t, s, bar).value;
    AppendMarketSound(t, s, bar);
    LaterIsInvisible(t.markets, row, s, n);
    OfSnoc(t.markets, row, s);
    FromSnoc(Of(t.markets, s), row, n);
    var before, after := Before(u, s, n).markets, After(u, s, n).markets;
    var i :| 0 <= i < |before| && before[i] == earlier;
    assert after[|after| - 1] == bar;
  }

  /** A new snapshot, newer than those of its session, is what a clean replay recovers. */
  lemma NewSnapshotIsRecovered(t: Store, snapshot: Snapshot)
    requires Coherent(t) && SnapshotAcceptable(t, snapshot) && snapshot !in Whole(t, snapshot.session).snapshots
    requires forall x :: x in Whole(t, snapshot.session).snapshots ==>
               x.observedAt < snapshot.observedAt || (x.observedAt == snapshot.observedAt && x.id < snapshot.id)
    ensures var r := AppendSnapshot(t, snapshot);
            r.Success? && Clean(Whole(r.value, snapshot.session)).positions == snapshot.positions
  {
    SnapshotWritten(t, snapshot);
    var snapshots := Whole(AppendSnapshot(t, snapshot).value, snapshot.session).snapshots;
    var i := |snapshots| - 1;
    forall j | 0 <= j < i ensures snapshots[j] in Whole(t, snapshot.session).snapshots {
      assert snapshots[j] == Whole(t, snapshot.session).snapshots[j];
    }
    RecoveredPositions(Whole(AppendSnapshot(t, snapshot).value, snapshot.session), i);
  }

  // ----- Every reachable store -----

  datatype Write =
    | MarketWrite(session: int, bar: MarketBar)
    | SnapshotWrite(snapshot: Snapshot)
    | SubmissionWrite(session: int, origin: Origin, intent: OrderIntent, decision: Decision, order: BrokerOrder,
                      observedAt: int)

  function Attempt(t: Store, w: Write): Written {
    match w
    case MarketWrite(session, bar) => AppendMarket(t, session, bar)
    case SnapshotWrite(snapshot) => AppendSnapshot(t, snapshot)
    case SubmissionWrite(session, origin, intent, decision, order, observedAt) =>
      RecordSubmission(t, session, origin, intent, decision, order, observedAt)
  }

  /** The store after a history of writes, failed ones included. */
  function History(sessions: map<int, int>, writes: seq<Write>): Store
    decreases |writes|
  {
    if writes == [] then Store(sessions, map[], map[], [], [], [], [])
    else
      var before := History(sessions, writes[..|writes| - 1]);
      var step := Attempt(before, writes[|writes| - 1]);
      if step.Success? then step.value else before
  }

  /** The write is a submission of session `s`. */
  predicate Submits(w: Write, s: int) { w.SubmissionWrite? && w.session == s }

  /** No accepted submission of session `s` repeated a stored order event in a way that matters. */
  ghost predicate NoBadRepeat(sessions: map<int, int>, writes: seq<Write>, s: int)
    decreases |writes|
  {
    writes == [] ||
    (var front, last := writes[..|writes| - 1], writes[|writes| - 1];
     var before := History(sessions, front);
     NoBadRepeat(sessions, front, s) &&
     (Submits(last, s) && Attempt(before, last).Success? ==> Harmless(Whole(before, s), last.order)))
  }

  /** The last accepted submission of session `s`, if any, did not. */
  ghost predicate LastRepeatHarmless(sessions: map<int, int>, writes: seq<Write>, s: int)
    decreases |writes|
  {
    writes == [] ||
    (var front, last := writes[..|writes| - 1], writes[|writes| - 1];
     var before := History(sessions, front);
     if Submits(last, s) && Attempt(before, last).Success? then Harmless(Whole(before, s), last.order)
     else LastRepeatHarmless(sessions, front, s))
  }

  lemma OneWrite(t: Store, w: Write, s: int)
    requires Coherent(t)
    ensures var r := Attempt(t, w);
            r.Success? ==>
              && Coherent(r.value)
              && (Reproducible(r.value, s) <==>
                  Reproducible(t, s) && (Submits(w, s) ==> Harmless(Whole(t, s), w.order)))
              && (NewestReproducible(r.value, s) <==>
                  if Submits(w, s) then Harmless(Whole(t, s), w.order) else NewestReproducible(t, s))
  {
    match w
    case MarketWrite(session, bar) =>
      AppendMarketSound(t, session, bar);
      AppendMarketReproducible(t, session, bar, s);
    case SnapshotWrite(snapshot) =>
      AppendSnapshotSound(t, snapshot);
      AppendSnapshotReproducible(t, snapshot, s);
    case SubmissionWrite(session, origin, intent, decision, order, observedAt) =>
      SubmissionSound(t, session, origin, intent, decision, order, observedAt);
      SubmissionReproducible(t, session, origin, intent, decision, order, observedAt, s);
      SubmissionNewest(t, session, origin, intent, decision, order, observedAt, s);
  }

  /** In every reachable store the sequences have no gaps and the generations grow; the newest
      checkpoint, the one recovery compares, can be reproduced from its filters exactly when the last
      accepted submission was harmless, and every checkpoint exactly when all of them were. */
  lemma {:induction false} EveryReachableStore(sessions: map<int, int>, writes: seq<Write>, s: int)
    ensures Coherent(History(sessions, writes))
    ensures NewestReproducible(History(sessions, writes), s) <==> LastRepeatHarmless(sessions, writes, s)
    ensures Reproducible(History(sessions, writes), s) <==> NoBadRepeat(sessions, writes, s)
    decreases |writes|
  {
    if writes == [] {
      EmptyIsSound(sessions);
    } else {
      var before := History(sessions, writes[..|writes| - 1]);
      EveryReachableStore(sessions, writes[..|writes| - 1], s);
      OneWrite(before, writes[|writes| - 1], s);
    }
  }

  // ----- A repeated update -----

  /** A ledger that holds exactly the given order events of `s`. */
  ghost predicate Holds(t: Store, sessions: map<int, int>, s: int, intent: OrderIntent, decision: Decision,
                        orders: seq<BrokerOrder>)
  {
    Coherent(t) && t.sessions == sessions && Agrees(t, intent, decision) && Whole(t, s) == Ledger([], orders, [])
  }

  /** One more event that fits is accepted. */
  lemma HoldsOneMore(t: Store, sessions: map<int, int>, s: int, origin: Origin, intent: OrderIntent, decision: Decision,
                     orders: seq<BrokerOrder>, order: BrokerOrder, at: int)
    requires Holds(t, sessions, s, intent, decision, orders) && Fits(sessions, s, intent, decision, order)
    ensures var r := RecordSubmission(t, s, origin, intent, decision, order, at);
            && r.Success?
            && Holds(r.value, sessions, s, intent, decision, if order in orders then orders else orders + [order])
  {
    SubmissionWritten(t, s, origin, intent, decision, order, at);
    SubmissionSound(t, s, origin, intent, decision, order, at);
    StoredIsHeld(t, RecordSubmission(t, s, origin, intent, decision, order, at).value, sessions, s, intent, decision,
                 orders, order);
  }

  lemma StoredIsHeld(t: Store, u: Store, sessions: map<int, int>, s: int, intent: OrderIntent, decision: Decision,
                     orders: seq<BrokerOrder>, order: BrokerOrder)
    requires Holds(t, sessions, s, intent, decision, orders) && Coherent(u)
    requires SubmissionStored(t, u, s, intent, decision, order)
    ensures Holds(u, sessions, s, intent, decision, if order in orders then orders else orders + [order])
  {}

  lemma HistoryNext(sessions: map<int, int>, writes: seq<Write>, w: Write)
    requires Attempt(History(sessions, writes), w).Success?
    ensures History(sessions, writes + [w]) == Attempt(History(sessions, writes), w).value
  {
    assert (writes + [w])[..|writes|] == writes;
  }

  lemma HoldsNothing(sessions: map<int, int>, s: int, intent: OrderIntent, decision: Decision)
    ensures Holds(History(sessions, []), sessions, s, intent, decision, [])
  {
    EmptyIsSound(sessions);
  }

  lemma HoldsNext(sessions: map<int, int>, writes: seq<Write>, s: int, origin: Origin, intent: OrderIntent,
                  decision: Decision, orders: seq<BrokerOrder>, order: BrokerOrder, all: seq<BrokerOrder>, at: int)
    requires Holds(History(sessions, writes), sessions, s, intent, decision, orders)
    requires Fits(sessions, s, intent, decision, order) && order !in orders && all == orders + [order]
    ensures Holds(History(sessions, writes + [SubmissionWrite(s, origin, intent, decision, order, at)]),
                  sessions, s, intent, decision, all)
  {
    HoldsOneMore(History(sessions, writes), sessions, s, origin, intent, decision, orders, order, at);
    HistoryNext(sessions, writes, SubmissionWrite(s, origin, intent, decision, order, at));
  }

  /** Two updates of one order at the same time, then the first again, in a session with nothing
      stored yet: all three are accepted, the last stored event of the order is not the repeated one, and
      the store can no longer be recovered, because the newest checkpoint hashes a state that its own
      evidence does not give. */
  lemma RepeatedUpdateBreaksRecovery(sessions: map<int, int>, writes: seq<Write>, s: int, origin: Origin,
                                     intent: OrderIntent, decision: Decision, first: BrokerOrder, second: BrokerOrder,
                                     at: int)
    requires writes == [] || Holds(History(sessions, writes), sessions, s, intent, decision, [])
    requires Fits(sessions, s, intent, decision, first) && Fits(sessions, s, intent, decision, second)
    requires first.updatedAt == second.updatedAt && first.status != second.status
    ensures var one := SubmissionWrite(s, origin, intent, decision, first, at);
            var two := SubmissionWrite(s, origin, intent, decision, second, at);
            && Whole(History(sessions, writes + [one] + [two]), s).orders == [first, second]
            && Coherent(History(sessions, writes + [one] + [two] + [one]))
            && !NewestReproducible(History(sessions, writes + [one] + [two] + [one]), s)
  {
    var one := SubmissionWrite(s, origin, intent, decision, first, at);
    var two := SubmissionWrite(s, origin, intent, decision, second, at);
    if writes == [] {
      HoldsNothing(sessions, s, intent, decision);
    }
    HoldsNext(sessions, writes, s, origin, intent, decision, [], first, [first], at);
    HoldsNext(sessions, writes + [one], s, origin, intent, decision, [first], second, [first, second], at);
    RepeatedUpdateIsHarmful(first, second);
    HarmfulNext(sessions, writes + [one] + [two], s, origin, intent, decision, [first, second], first, at);
  }

  lemma HarmfulNext(sessions: map<int, int>, writes: seq<Write>, s: int, origin: Origin, intent: OrderIntent,
                    decision: Decision, orders: seq<BrokerOrder>, order: BrokerOrder, at: int)
    requires Holds(History(sessions, writes), sessions, s, intent, decision, orders)
    requires Fits(sessions, s, intent, decision, order) && !Harmless(Ledger([], orders, []), order)
    ensures var more := writes + [SubmissionWrite(s, origin, intent, decision, order, at)];
            Coherent(History(sessions, more)) && !NewestReproducible(History(sessions, more), s)
  {
    HoldsOneMore(History(sessions, writes), sessions, s, origin, intent, decision, orders, order, at);
    HistoryNext(sessions, writes, SubmissionWrite(s, origin, intent, decision, order, at));
    OneWrite(History(sessions, writes), SubmissionWrite(s, origin, intent, decision, order, at), s);
  }
}
