/** What every reachable ledger satisfies: checkpoint sequences without gaps, generations that grow
    in store order, and checkpoint hashes that the generation filters reproduce. */
module TableLaws {
  import opened Wrappers
  import opened Accounts
  import opened Orders
  import opened Evidence
  import opened Replay
  import opened Resumption
  import opened Tables

  // ----- Filters -----

  predicate Monotone<T>(rows: seq<Row<T>>) {
    forall i, j :: 0 <= i < j < |rows| ==> rows[i].generation <= rows[j].generation
  }

  predicate Between<T>(rows: seq<Row<T>>, low: int, high: int) {
    forall i :: 0 <= i < |rows| ==> low <= rows[i].generation <= high
  }

  lemma {:induction false} BelowAll<T>(rows: seq<Row<T>>, n: int)
    requires forall i :: 0 <= i < |rows| ==> rows[i].generation < n
    ensures Below(rows, n) == rows
  {
    if rows != [] {
      var front, last := rows[..|rows| - 1], rows[|rows| - 1];
      BelowAll(front, n);
      assert Below(rows, n) == Below(front, n) + [last];
      assert rows == front + [last];
    }
  }

  lemma {:induction false} FromNone<T>(rows: seq<Row<T>>, n: int)
    requires forall i :: 0 <= i < |rows| ==> rows[i].generation < n
    ensures From(rows, n) == []
  {
    if rows != [] {
      var front, last := rows[..|rows| - 1], rows[|rows| - 1];
      FromNone(front, n);
      assert From(rows, n) == From(front, n) + [];
    }
  }

  lemma AllEarlier<T>(rows: seq<Row<T>>, n: int)
    requires Monotone(rows) && rows != [] && rows[|rows| - 1].generation < n
    ensures Below(rows, n) + From(rows, n) == rows
  {
    BelowAll(rows, n);
    FromNone(rows, n);
  }

  lemma LastIsLater<T>(rows: seq<Row<T>>, n: int)
    requires rows != [] && rows[|rows| - 1].generation >= n
    ensures var front, last := rows[..|rows| - 1], rows[|rows| - 1];
            Below(rows, n) == Below(front, n) && From(rows, n) == From(front, n) + [last] && rows == front + [last]
  {}

  lemma Associates<T>(a: seq<T>, b: seq<T>, c: seq<T>)
    ensures a + (b + c) == (a + b) + c
  {}

  /** In a table whose generations grow, the two filters cut it in two. */
  lemma {:induction false} FiltersSplit<T>(rows: seq<Row<T>>, n: int)
    requires Monotone(rows)
    ensures Below(rows, n) + From(rows, n) == rows
  {
    if rows != [] {
      var front, last := rows[..|rows| - 1], rows[|rows| - 1];
      if last.generation < n {
        AllEarlier(rows, n);
      } else {
        FiltersSplit(front, n);
        LastIsLater(rows, n);
        Associates(Below(front, n), From(front, n), [last]);
      }
    }
  }

  lemma OfSnoc<T>(rows: seq<Row<T>>, row: Row<T>, s: int)
    ensures Of(rows + [row], s) == Of(rows, s) + (if row.session == s then [row] else [])
  {
    assert (rows + [row])[..|rows|] == rows;
  }

  lemma BelowSnoc<T>(rows: seq<Row<T>>, row: Row<T>, n: int)
    ensures Below(rows + [row], n) == Below(rows, n) + (if row.generation < n then [row] else [])
  {
    assert (rows + [row])[..|rows|] == rows;
  }

  lemma FromSnoc<T>(rows: seq<Row<T>>, row: Row<T>, n: int)
    ensures From(rows + [row], n) == From(rows, n) + (if row.generation >= n then [row] else [])
  {
    assert (rows + [row])[..|rows|] == rows;
  }

  lemma CheckpointsOfSnoc(checkpoints: seq<Checkpoint>, c: Checkpoint, s: int)
    ensures CheckpointsOf(checkpoints + [c], s) == CheckpointsOf(checkpoints, s) + (if c.session == s then [c] else [])
  {
    assert (checkpoints + [c])[..|checkpoints|] == checkpoints;
  }

  lemma {:induction false} CheckpointsOfMembers(checkpoints: seq<Checkpoint>, s: int)
    ensures forall c :: c in CheckpointsOf(checkpoints, s) <==> c in checkpoints && c.session == s
  {
    if checkpoints != [] {
      CheckpointsOfMembers(checkpoints[..|checkpoints| - 1], s);
      assert checkpoints == checkpoints[..|checkpoints| - 1] + [checkpoints[|checkpoints| - 1]];
    }
  }

  lemma {:induction false} OfMembers<T>(rows: seq<Row<T>>, s: int)
    ensures forall r :: r in Of(rows, s) <==> r in rows && r.session == s
  {
    if rows != [] {
      OfMembers(rows[..|rows| - 1], s);
      assert rows == rows[..|rows| - 1] + [rows[|rows| - 1]];
    }
  }

  // ----- The invariant -----

  predicate Numbered(cs: seq<Checkpoint>) {
    forall k :: 0 <= k < |cs| ==> cs[k].sequence == k + 1
  }

  predicate SessionOk(t: Store, s: int) {
    var n := |CheckpointsOf(t.checkpoints, s)|;
    && Numbered(CheckpointsOf(t.checkpoints, s))
    && Monotone(Of(t.markets, s)) && Between(Of(t.markets, s), 0, n)
    && Monotone(Of(t.orders, s)) && Between(Of(t.orders, s), 1, n)
    && Monotone(Of(t.snapshots, s)) && Between(Of(t.snapshots, s), 0, n)
  }

  /** Ids name their session and sequence; every order event belongs to the session of its intent;
      provider ids and snapshot ids are unique. */
  ghost predicate KeysOk(t: Store) {
    && (forall c :: c in t.checkpoints ==> c.id.sequence == c.sequence && c.id.digest.session == c.session)
    && (forall r :: r in t.orders ==> r.item.clientId in t.intents && t.intents[r.item.clientId].run == r.session)
    && (forall i, j :: 0 <= i < j < |t.markets| ==> t.markets[i].item.providerId != t.markets[j].item.providerId)
    && (forall i, j :: 0 <= i < j < |t.snapshots| ==> t.snapshots[i].item.id != t.snapshots[j].item.id)
    && (forall r :: r in t.snapshots ==> r.item.session == r.session)
  }

  ghost predicate Coherent(t: Store) {
    KeysOk(t) && forall s :: SessionOk(t, s)
  }

  /** What the generation filters select for the checkpoint with index `k`. */
  function Behind(t: Store, s: int, k: int): Ledger { Before(t, s, k + 1) }

  /** The checkpoint carries the hash of a replay of `l`. */
  predicate Hashes(c: Checkpoint, s: int, l: Ledger) {
    c.stateHash == Sha256(s, Clean(l))
  }

  /** Every checkpoint hash is the hash of a replay of what its generation filters select. */
  ghost predicate Reproducible(t: Store, s: int) {
    var cs := CheckpointsOf(t.checkpoints, s);
    forall k :: 0 <= k < |cs| ==> Hashes(cs[k], s, Behind(t, s, k))
  }

  /** The same for the newest checkpoint, the only one that recovery compares. */
  predicate NewestReproducible(t: Store, s: int) {
    var latest := LatestCheckpoint(t, s);
    latest.Some? ==> Hashes(latest.value, s, Before(t, s, latest.value.sequence))
  }

  /** Nothing changes for the checkpoints there are. */
  lemma SameBehind(t: Store, u: Store, s: int)
    requires u.checkpoints == t.checkpoints
    requires forall k :: 0 <= k < |CheckpointsOf(t.checkpoints, s)| ==> Behind(u, s, k) == Behind(t, s, k)
    ensures Reproducible(u, s) <==> Reproducible(t, s)
  {}

  lemma EmptyIsSound(sessions: map<int, int>)
    ensures Coherent(Store(sessions, map[], map[], [], [], [], []))
    ensures forall s :: Reproducible(Store(sessions, map[], map[], [], [], [], []), s)
  {}

  lemma GreatestOfNumbered(cs: seq<Checkpoint>)
    requires Numbered(cs)
    ensures Greatest(cs) == if cs == [] then None else Some(cs[|cs| - 1])
  {
    if |cs| > 1 {
      GreatestOfNumbered(cs[..|cs| - 1]);
    }
  }

  lemma LatestIsCount(t: Store, s: int)
    requires SessionOk(t, s)
    ensures LatestSequence(t, s) == |CheckpointsOf(t.checkpoints, s)|
  {
    GreatestOfNumbered(CheckpointsOf(t.checkpoints, s));
  }

  lemma NewestIsLast(t: Store, s: int)
    requires SessionOk(t, s)
    ensures var cs := CheckpointsOf(t.checkpoints, s);
            NewestReproducible(t, s) <==> cs != [] ==> Hashes(cs[|cs| - 1], s, Behind(t, s, |cs| - 1))
  {
    GreatestOfNumbered(CheckpointsOf(t.checkpoints, s));
  }

  /** Nothing changes for the newest checkpoint. */
  lemma SameNewest(t: Store, u: Store, s: int)
    requires SessionOk(t, s) && u.checkpoints == t.checkpoints
    requires forall k :: 0 <= k < |CheckpointsOf(t.checkpoints, s)| ==> Behind(u, s, k) == Behind(t, s, k)
    ensures NewestReproducible(u, s) <==> NewestReproducible(t, s)
  {
    var cs := CheckpointsOf(t.checkpoints, s);
    GreatestOfNumbered(cs);
    if cs != [] {
      assert Behind(u, s, |cs| - 1) == Behind(t, s, |cs| - 1);
      assert LatestCheckpoint(u, s) == LatestCheckpoint(t, s) == Some(cs[|cs| - 1]);
    }
  }

  // ----- Appending evidence -----

  lemma {:induction false} FindMarketNone(rows: seq<Row<MarketBar>>, id: int)
    requires FindMarket(rows, id).None?
    ensures forall i :: 0 <= i < |rows| ==> rows[i].item.providerId != id
  {
    if rows != [] {
      FindMarketNone(rows[1..], id);
      forall i | 0 <= i < |rows| ensures rows[i].item.providerId != id {
        if i > 0 { assert rows[i] == rows[1..][i - 1]; }
      }
    }
  }

  lemma Grows<T>(rows: seq<Row<T>>, row: Row<T>, low: int, n: int)
    requires Monotone(rows) && Between(rows, low, n) && low <= row.generation && n <= row.generation
    ensures Monotone(rows + [row]) && Between(rows + [row], low, row.generation)
  {}

  /** A row appended with the current generation grows the table in order. */
  lemma GrowsInOrder<T>(rows: seq<Row<T>>, row: Row<T>, s: int, low: int, n: int)
    requires Monotone(Of(rows, s)) && Between(Of(rows, s), low, n)
    requires row.session == s ==> low <= row.generation && n <= row.generation
    ensures Monotone(Of(rows + [row], s))
    ensures Between(Of(rows + [row], s), low, if row.session == s then row.generation else n)
  {
    OfSnoc(rows, row, s);
    if row.session == s {
      Grows(Of(rows, s), row, low, n);
    } else {
      assert Of(rows + [row], s) == Of(rows, s);
    }
  }

  /** A later generation is invisible to the filter of an earlier checkpoint. */
  lemma LaterIsInvisible<T>(rows: seq<Row<T>>, row: Row<T>, s: int, n: int)
    requires row.session == s ==> row.generation >= n
    ensures Below(Of(rows + [row], s), n) == Below(Of(rows, s), n)
  {
    OfSnoc(rows, row, s);
    if row.session == s {
      BelowSnoc(Of(rows, s), row, n);
    } else {
      assert Of(rows + [row], s) == Of(rows, s);
    }
  }

  /** The session after a market row of the current generation. */
  lemma MarketSession(t: Store, u: Store, row: Row<MarketBar>, s: int)
    requires SessionOk(t, s) && u == t.(markets := t.markets + [row])
    requires row.session == s ==> row.generation == |CheckpointsOf(t.checkpoints, s)|
    ensures SessionOk(u, s)
  {
    GrowsInOrder(t.markets, row, s, 0, |CheckpointsOf(t.checkpoints, s)|);
  }

  lemma MarketReproducible(t: Store, u: Store, row: Row<MarketBar>, s: int)
    requires u == t.(markets := t.markets + [row])
    requires row.session == s ==> row.generation == |CheckpointsOf(t.checkpoints, s)|
    ensures Reproducible(u, s) <==> Reproducible(t, s)
    ensures SessionOk(t, s) ==> (NewestReproducible(u, s) <==> NewestReproducible(t, s))
  {
    forall k | 0 <= k < |CheckpointsOf(t.checkpoints, s)| ensures Behind(u, s, k) == Behind(t, s, k) {
      LaterIsInvisible(t.markets, row, s, k + 1);
    }
    SameBehind(t, u, s);
    if SessionOk(t, s) {
      SameNewest(t, u, s);
    }
  }

  lemma AppendMarketKeys(t: Store, session: int, bar: MarketBar, generation: int)
    requires KeysOk(t) && FindMarket(t.markets, bar.providerId).None?
    ensures KeysOk(t.(markets := t.markets + [Row(session, bar, generation)]))
  {
    FindMarketNone(t.markets, bar.providerId);
  }

  lemma AppendMarketSound(t: Store, session: int, bar: MarketBar)
    requires Coherent(t)
    ensures var r := AppendMarket(t, session, bar); r.Success? ==> Coherent(r.value)
  {
    var r := AppendMarket(t, session, bar);
    if r.Success? && r.value != t {
      assert SessionOk(t, session);
      LatestIsCount(t, session);
      var row := Row(session, bar, LatestSequence(t, session));
      AppendMarketKeys(t, session, bar, row.generation);
      forall s ensures SessionOk(r.value, s) {
        MarketSession(t, r.value, row, s);
      }
    }
  }

  lemma AppendMarketReproducible(t: Store, session: int, bar: MarketBar, s: int)
    requires Coherent(t)
    ensures var r := AppendMarket(t, session, bar);
            r.Success? ==>
              && (Reproducible(r.value, s) <==> Reproducible(t, s))
              && (NewestReproducible(r.value, s) <==> NewestReproducible(t, s))
  {
    var r := AppendMarket(t, session, bar);
    if r.Success? && r.value != t {
      assert SessionOk(t, session) && SessionOk(t, s);
      LatestIsCount(t, session);
      MarketReproducible(t, r.value, Row(session, bar, LatestSequence(t, session)), s);
    }
  }

  /** The session after a snapshot row of the current generation. */
  lemma SnapshotSession(t: Store, u: Store, row: Row<Snapshot>, s: int)
    requires SessionOk(t, s) && u == t.(snapshots := t.snapshots + [row])
    requires row.session == s ==> row.generation == |CheckpointsOf(t.checkpoints, s)|
    ensures SessionOk(u, s)
  {
    GrowsInOrder(t.snapshots, row, s, 0, |CheckpointsOf(t.checkpoints, s)|);
  }

  lemma SnapshotReproducible(t: Store, u: Store, row: Row<Snapshot>, s: int)
    requires u == t.(snapshots := t.snapshots + [row])
    requires row.session == s ==> row.generation == |CheckpointsOf(t.checkpoints, s)|
    ensures Reproducible(u, s) <==> Reproducible(t, s)
    ensures SessionOk(t, s) ==> (NewestReproducible(u, s) <==> NewestReproducible(t, s))
  {
    forall k | 0 <= k < |CheckpointsOf(t.checkpoints, s)| ensures Behind(u, s, k) == Behind(t, s, k) {
      LaterIsInvisible(t.snapshots, row, s, k + 1);
    }
    SameBehind(t, u, s);
    if SessionOk(t, s) {
      SameNewest(t, u, s);
    }
  }

  lemma {:induction false} FindSnapshotNone(rows: seq<Row<Snapshot>>, id: int)
    requires FindSnapshot(rows, id).None?
    ensures forall i :: 0 <= i < |rows| ==> rows[i].item.id != id
  {
    if rows != [] {
      FindSnapshotNone(rows[1..], id);
      forall i | 0 <= i < |rows| ensures rows[i].item.id != id {
        if i > 0 { assert rows[i] == rows[1..][i - 1]; }
      }
    }
  }

  lemma AppendSnapshotKeys(t: Store, snapshot: Snapshot, generation: int)
    requires KeysOk(t) && FindSnapshot(t.snapshots, snapshot.id).None?
    ensures KeysOk(t.(snapshots := t.snapshots + [Row(snapshot.session, snapshot, generation)]))
  {
    FindSnapshotNone(t.snapshots, snapshot.id);
  }

  lemma AppendSnapshotSound(t: Store, snapshot: Snapshot)
    requires Coherent(t)
    ensures var r := AppendSnapshot(t, snapshot); r.Success? ==> Coherent(r.value)
  {
    var r := AppendSnapshot(t, snapshot);
    if r.Success? && r.value != t {
      assert SessionOk(t, snapshot.session);
      LatestIsCount(t, snapshot.session);
      AppendSnapshotKeys(t, snapshot, LatestSequence(t, snapshot.session));
      forall s ensures SessionOk(r.value, s) {
        SnapshotSession(t, r.value, Row(snapshot.session, snapshot, LatestSequence(t, snapshot.session)), s);
      }
    }
  }

  lemma AppendSnapshotReproducible(t: Store, snapshot: Snapshot, s: int)
    requires Coherent(t)
    ensures var r := AppendSnapshot(t, snapshot);
            r.Success? ==>
              && (Reproducible(r.value, s) <==> Reproducible(t, s))
              && (NewestReproducible(r.value, s) <==> NewestReproducible(t, s))
  {
    var r := AppendSnapshot(t, snapshot);
    if r.Success? && r.value != t {
      assert SessionOk(t, snapshot.session) && SessionOk(t, s);
      LatestIsCount(t, snapshot.session);
      SnapshotReproducible(t, r.value, Row(snapshot.session, snapshot, LatestSequence(t, snapshot.session)), s);
    }
  }

  // ----- Submissions -----

  lemma {:induction false} FindCheckpointNone(rows: seq<Checkpoint>, c: Checkpoint)
    requires forall d :: d in rows ==> d.id != c.id && !(d.session == c.session && d.sequence == c.sequence)
    ensures FindCheckpoint(rows, c).None?
  {
    if rows != [] {
      FindCheckpointNone(rows[1..], c);
    }
  }

  /** The next checkpoint is neither a conflict nor a gap. */
  lemma NextCheckpointFits(t: Store, s: int, c: Checkpoint)
    requires SessionOk(t, s) && KeysOk(t)
    requires c.session == s && c.sequence == LatestSequence(t, s) + 1
    requires c.id.sequence == c.sequence && c.id.digest.session == s
    ensures PutCheckpoint(t, c) == Success(t.(checkpoints := t.checkpoints + [c]))
  {
    LatestIsCount(t, s);
    CheckpointsOfMembers(t.checkpoints, s);
    var cs := CheckpointsOf(t.checkpoints, s);
    forall d | d in t.checkpoints ensures d.id != c.id && !(d.session == c.session && d.sequence == c.sequence) {
      if d.session == s {
        assert d in cs;
        var k :| 0 <= k < |cs| && cs[k] == d;
      }
    }
    FindCheckpointNone(t.checkpoints, c);
  }

  /** The tables after a submission: the order unless it was there, and one more checkpoint. */
  ghost predicate Submitted(t: Store, u: Store, s: int, order: BrokerOrder, c: Checkpoint) {
    && u.markets == t.markets && u.snapshots == t.snapshots && u.sessions == t.sessions
    && u.orders == (if HasOrder(t.orders, order) then t.orders else t.orders + [Row(s, order, c.sequence)])
    && u.checkpoints == t.checkpoints + [c]
    && (forall key :: key in t.intents ==> key in u.intents && u.intents[key] == t.intents[key])
    && order.clientId in u.intents && u.intents[order.clientId].run == s
  }

  /** Everything a submission stores before its checkpoint. */
  lemma StoredBeforeCheckpoint(t: Store, s: int, intent: OrderIntent, decision: Decision, order: BrokerOrder,
                               c: Checkpoint)
    returns (v: Store)
    requires ValidBundle(intent, decision, order, c) && c.session == s
    requires PutIntent(t, intent).Success? && PutDecision(PutIntent(t, intent).value, decision).Success?
    ensures v == PutOrder(PutDecision(PutIntent(t, intent).value, decision).value, intent.run, order, c.sequence)
    ensures v.checkpoints == t.checkpoints && Submitted(t, v.(checkpoints := t.checkpoints + [c]), s, order, c)
  {
    v := PutOrder(PutDecision(PutIntent(t, intent).value, decision).value, intent.run, order, c.sequence);
  }

  /** A submission fails only for its own content; its checkpoint always fits. */
  lemma SubmissionShape(t: Store, s: int, origin: Origin, intent: OrderIntent, decision: Decision, order: BrokerOrder,
                        observedAt: int)
    requires Coherent(t)
    ensures var c := NextCheckpoint(t, s, origin, order, observedAt);
            match RecordSubmission(t, s, origin, intent, decision, order, observedAt)
            case Success(u) => Submitted(t, u, s, order, c)
            case Failure(e) => e.InvalidBundle? || e.SessionNotFound? || e.SessionDateMismatch? ||
                               e.IntentMismatch? || e.DecisionMismatch?
  {
    var c := NextCheckpoint(t, s, origin, order, observedAt);
    BundleShape(t, s, intent, decision, order, c);
  }

  lemma BundleShape(t: Store, s: int, intent: OrderIntent, decision: Decision, order: BrokerOrder, c: Checkpoint)
    requires Coherent(t)
    requires c.session == s && c.sequence == LatestSequence(t, s) + 1
    requires c.id.sequence == c.sequence && c.id.digest.session == s
    ensures match RecordBundle(t, intent, decision, order, c)
            case Success(u) => Submitted(t, u, s, order, c)
            case Failure(e) => e.InvalidBundle? || e.SessionNotFound? || e.SessionDateMismatch? ||
                               e.IntentMismatch? || e.DecisionMismatch?
  {
    if ValidBundle(intent, decision, order, c) && PutIntent(t, intent).Success? &&
       PutDecision(PutIntent(t, intent).value, decision).Success?
    {
      var v := StoredBeforeCheckpoint(t, s, intent, decision, order, c);
      CheckpointFitsAnyway(t, v, s, c);
    }
  }

  lemma CheckpointFitsAnyway(t: Store, v: Store, s: int, c: Checkpoint)
    requires Coherent(t) && v.checkpoints == t.checkpoints
    requires c.session == s && c.sequence == LatestSequence(t, s) + 1
    requires c.id.sequence == c.sequence && c.id.digest.session == s
    ensures PutCheckpoint(v, c) == Success(v.(checkpoints := v.checkpoints + [c]))
  {
    assert SessionOk(t, s);
    NextCheckpointFits(t, s, c);
    assert PutCheckpoint(t, c).Success? ==> FindCheckpoint(v.checkpoints, c) == FindCheckpoint(t.checkpoints, c);
  }

  lemma SubmittedKeys(t: Store, u: Store, s: int, order: BrokerOrder, c: Checkpoint)
    requires KeysOk(t) && Submitted(t, u, s, order, c)
    requires c.session == s && c.id.sequence == c.sequence && c.id.digest.session == s
    ensures KeysOk(u)
  {}

  lemma SubmittedSession(t: Store, u: Store, s: int, order: BrokerOrder, c: Checkpoint, x: int)
    requires SessionOk(t, x) && Submitted(t, u, s, order, c)
    requires c.session == s && (x == s ==> c.sequence == |CheckpointsOf(t.checkpoints, s)| + 1)
    ensures SessionOk(u, x)
  {
    var n, m := |CheckpointsOf(t.checkpoints, x)|, |CheckpointsOf(u.checkpoints, x)|;
    CheckpointsOfSnoc(t.checkpoints, c, x);
    NumberedMore(CheckpointsOf(t.checkpoints, x), c);
    Widens(Of(t.markets, x), 0, n, m);
    Widens(Of(t.snapshots, x), 0, n, m);
    Widens(Of(t.orders, x), 1, n, m);
    if !HasOrder(t.orders, order) {
      GrowsInOrder(t.orders, Row(s, order, c.sequence), x, 1, n);
    }
  }

  lemma NumberedMore(cs: seq<Checkpoint>, c: Checkpoint)
    requires Numbered(cs)
    ensures c.sequence == |cs| + 1 ==> Numbered(cs + [c])
  {}

  lemma Widens<T>(rows: seq<Row<T>>, low: int, n: int, m: int)
    requires Between(rows, low, n)
    ensures n <= m ==> Between(rows, low, m)
  {}

  lemma SubmissionSound(t: Store, s: int, origin: Origin, intent: OrderIntent, decision: Decision, order: BrokerOrder,
                        observedAt: int)
    requires Coherent(t)
    ensures var r := RecordSubmission(t, s, origin, intent, decision, order, observedAt);
            r.Success? ==> Coherent(r.value)
  {
    var r := RecordSubmission(t, s, origin, intent, decision, order, observedAt);
    SubmissionShape(t, s, origin, intent, decision, order, observedAt);
    if r.Success? {
      var c := NextCheckpoint(t, s, origin, order, observedAt);
      assert SessionOk(t, s);
      LatestIsCount(t, s);
      SubmittedKeys(t, r.value, s, order, c);
      forall x ensures SessionOk(r.value, x) {
        assert SessionOk(t, x);
        SubmittedSession(t, r.value, s, order, c, x);
      }
    }
  }

  lemma AllBelow<T>(rows: seq<Row<T>>, low: int, n: int)
    requires Between(rows, low, n - 1)
    ensures Below(rows, n) == rows
  {
    BelowAll(rows, n);
  }

  /** The filters of a checkpoint select everything stored when it was written. */
  lemma NewestSelectsAll(u: Store, s: int, n: int)
    requires Between(Of(u.markets, s), 0, n - 1) && Between(Of(u.orders, s), 1, n) &&
             Between(Of(u.snapshots, s), 0, n - 1)
    ensures Before(u, s, n) == Whole(u, s)
  {
    AllBelow(Of(u.markets, s), 0, n);
    AllBelow(Of(u.orders, s), 1, n + 1);
    AllBelow(Of(u.snapshots, s), 0, n);
  }

  lemma EarlierUntouched(t: Store, u: Store, s: int, order: BrokerOrder, c: Checkpoint, x: int, n: int)
    requires Submitted(t, u, s, order, c) && (x == s ==> n < c.sequence)
    ensures Before(u, x, n) == Before(t, x, n)
  {
    if !HasOrder(t.orders, order) {
      LaterIsInvisible(t.orders, Row(s, order, c.sequence), x, n + 1);
    }
  }

  /** An order stored before belongs to the same session. */
  lemma KnownOrderIsOurs(t: Store, u: Store, s: int, order: BrokerOrder, c: Checkpoint)
    requires KeysOk(t) && Submitted(t, u, s, order, c)
    ensures HasOrder(t.orders, order) <==> order in Whole(t, s).orders
  {
    if i :| 0 <= i < |t.orders| && t.orders[i].item == order {
      assert t.orders[i] in t.orders;
      StoredIsListed(t.orders, s, t.orders[i]);
    }
    if order in Whole(t, s).orders {
      ListedIsStored(t.orders, s, order);
    }
  }

  lemma StoredIsListed<T>(rows: seq<Row<T>>, s: int, row: Row<T>)
    requires row in rows && row.session == s
    ensures row.item in Items(Of(rows, s))
  {
    OfMembers(rows, s);
    var k :| 0 <= k < |Of(rows, s)| && Of(rows, s)[k] == row;
    assert Items(Of(rows, s))[k] == row.item;
  }

  lemma ListedIsStored<T>(rows: seq<Row<T>>, s: int, item: T)
    requires item in Items(Of(rows, s))
    ensures exists i :: 0 <= i < |rows| && rows[i].item == item
  {
    OfMembers(rows, s);
    var k :| 0 <= k < |Of(rows, s)| && Items(Of(rows, s))[k] == item;
    assert Of(rows, s)[k] in Of(rows, s);
    var i :| 0 <= i < |rows| && rows[i] == Of(rows, s)[k];
  }

  lemma WholeAfter(t: Store, u: Store, s: int, order: BrokerOrder, c: Checkpoint)
    requires KeysOk(t) && Submitted(t, u, s, order, c)
    ensures Whole(u, s) == if order in Whole(t, s).orders then Whole(t, s) else WithOrder(Whole(t, s), order)
  {
    KnownOrderIsOurs(t, u, s, order, c);
    if !HasOrder(t.orders, order) {
      OfSnoc(t.orders, Row(s, order, c.sequence), s);
      assert Whole(u, s).orders == Whole(t, s).orders + [order];
    }
  }

  /** A new order event, or one that a replay does not notice a second time. */
  ghost predicate Harmless(l: Ledger, order: BrokerOrder) {
    order in l.orders ==> Clean(WithOrder(l, order)) == Clean(l)
  }

  /** A submission keeps every checkpoint reproducible exactly when its order is harmless. */
  lemma SubmissionReproducible(t: Store, s: int, origin: Origin, intent: OrderIntent, decision: Decision,
                               order: BrokerOrder, observedAt: int, x: int)
    requires Coherent(t)
    ensures var r := RecordSubmission(t, s, origin, intent, decision, order, observedAt);
            r.Success? ==>
              (Reproducible(r.value, x) <==> Reproducible(t, x) && (x == s ==> Harmless(Whole(t, s), order)))
  {
    var r := RecordSubmission(t, s, origin, intent, decision, order, observedAt);
    SubmissionShape(t, s, origin, intent, decision, order, observedAt);
    SubmissionSound(t, s, origin, intent, decision, order, observedAt);
    if r.Success? {
      assert SessionOk(t, s) && SessionOk(t, x) && SessionOk(r.value, s);
      LatestIsCount(t, s);
      var c := NextCheckpoint(t, s, origin, order, observedAt);
      if x == s {
        OwnCheckpoint(t, r.value, s, order, c);
      } else {
        OtherCheckpoints(t, r.value, s, order, c, x);
      }
    }
  }

  /** After a submission the newest checkpoint of its session can be reproduced exactly when its order
      is harmless, whatever was the case before. */
  lemma SubmissionNewest(t: Store, s: int, origin: Origin, intent: OrderIntent, decision: Decision, order: BrokerOrder,
                         observedAt: int, x: int)
    requires Coherent(t)
    ensures var r := RecordSubmission(t, s, origin, intent, decision, order, observedAt);
            r.Success? ==>
              (NewestReproducible(r.value, x) <==>
               if x == s then Harmless(Whole(t, s), order) else NewestReproducible(t, x))
  {
    var r := RecordSubmission(t, s, origin, intent, decision, order, observedAt);
    SubmissionShape(t, s, origin, intent, decision, order, observedAt);
    SubmissionSound(t, s, origin, intent, decision, order, observedAt);
    if r.Success? {
      assert SessionOk(t, s) && SessionOk(t, x) && SessionOk(r.value, s) && SessionOk(r.value, x);
      LatestIsCount(t, s);
      var c := NextCheckpoint(t, s, origin, order, observedAt);
      if x == s {
        OwnNewest(t, r.value, s, order, c);
      } else {
        OtherNewest(t, r.value, s, order, c, x);
      }
    }
  }

  lemma OwnNewest(t: Store, u: Store, s: int, order: BrokerOrder, c: Checkpoint)
    requires KeysOk(t) && Submitted(t, u, s, order, c) && c.session == s && SessionOk(t, s) && SessionOk(u, s)
    requires Hashes(c, s, WithOrder(Whole(t, s), order))
    ensures NewestReproducible(u, s) <==> Harmless(Whole(t, s), order)
  {
    var n := |CheckpointsOf(t.checkpoints, s)|;
    CheckpointsOfSnoc(t.checkpoints, c, s);
    NewestIsLast(u, s);
    BehindNewest(t, u, s, order, c, n);
    NewHashMatches(c, s, Whole(t, s), order, Behind(u, s, n));
  }

  lemma OtherNewest(t: Store, u: Store, s: int, order: BrokerOrder, c: Checkpoint, x: int)
    requires Submitted(t, u, s, order, c) && c.session == s != x && SessionOk(t, x) && SessionOk(u, x)
    ensures NewestReproducible(u, x) <==> NewestReproducible(t, x)
  {
    var n := |CheckpointsOf(t.checkpoints, x)|;
    CheckpointsOfSnoc(t.checkpoints, c, x);
    NewestIsLast(t, x);
    NewestIsLast(u, x);
    EarlierUntouched(t, u, s, order, c, x, n);
  }

  lemma OtherCheckpoints(t: Store, u: Store, s: int, order: BrokerOrder, c: Checkpoint, x: int)
    requires Submitted(t, u, s, order, c) && c.session == s != x
    ensures Reproducible(u, x) <==> Reproducible(t, x)
  {
    CheckpointsOfSnoc(t.checkpoints, c, x);
    forall k | 0 <= k < |CheckpointsOf(t.checkpoints, x)| ensures Behind(u, x, k) == Behind(t, x, k) {
      EarlierUntouched(t, u, s, order, c, x, k + 1);
    }
  }

  /** The evidence behind the new checkpoint. */
  lemma BehindNewest(t: Store, u: Store, s: int, order: BrokerOrder, c: Checkpoint, n: nat)
    requires KeysOk(t) && SessionOk(t, s) && SessionOk(u, s) && Submitted(t, u, s, order, c)
    requires n == |CheckpointsOf(t.checkpoints, s)| && |CheckpointsOf(u.checkpoints, s)| == n + 1
    ensures Behind(u, s, n) == if order in Whole(t, s).orders then Whole(t, s) else WithOrder(Whole(t, s), order)
  {
    NewestSelectsAll(u, s, n + 1);
    WholeAfter(t, u, s, order, c);
  }

  lemma OwnCheckpoint(t: Store, u: Store, s: int, order: BrokerOrder, c: Checkpoint)
    requires Coherent(t) && Submitted(t, u, s, order, c) && c.session == s && SessionOk(u, s)
    requires c.sequence == |CheckpointsOf(t.checkpoints, s)| + 1
    requires Hashes(c, s, WithOrder(Whole(t, s), order))
    ensures Reproducible(u, s) <==> Reproducible(t, s) && Harmless(Whole(t, s), order)
  {
    var n := |CheckpointsOf(t.checkpoints, s)|;
    assert SessionOk(t, s);
    CheckpointsOfSnoc(t.checkpoints, c, s);
    forall k | 0 <= k < n ensures Behind(u, s, k) == Behind(t, s, k) {
      EarlierUntouched(t, u, s, order, c, s, k + 1);
    }
    BehindNewest(t, u, s, order, c, n);
    HashesExtend(t, u, s, c);
    NewHashMatches(c, s, Whole(t, s), order, Behind(u, s, n));
  }

  lemma NewHashMatches(c: Checkpoint, s: int, l: Ledger, order: BrokerOrder, behind: Ledger)
    requires Hashes(c, s, WithOrder(l, order))
    requires behind == if order in l.orders then l else WithOrder(l, order)
    ensures Hashes(c, s, behind) <==> Harmless(l, order)
  {}

  lemma HashesExtend(t: Store, u: Store, s: int, c: Checkpoint)
    requires var cs := CheckpointsOf(t.checkpoints, s);
             && CheckpointsOf(u.checkpoints, s) == cs + [c]
             && (forall k :: 0 <= k < |cs| ==> Behind(u, s, k) == Behind(t, s, k))
    ensures var n := |CheckpointsOf(t.checkpoints, s)|;
            Reproducible(u, s) <==> Reproducible(t, s) && Hashes(c, s, Behind(u, s, n))
  {
    var cs, ds := CheckpointsOf(t.checkpoints, s), CheckpointsOf(u.checkpoints, s);
    assert forall k :: 0 <= k < |cs| ==> ds[k] == cs[k];
    assert ds[|cs|] == c;
    if Reproducible(u, s) {
      forall k | 0 <= k < |cs| ensures Hashes(cs[k], s, Behind(t, s, k)) {
        assert Hashes(ds[k], s, Behind(u, s, k));
      }
    }
  }

  // ----- Recovery -----

  /** In a sound store the two filters of a checkpoint cut the evidence in two. */
  lemma FiltersAreExact(t: Store, s: int, n: int)
    requires SessionOk(t, s)
    ensures Joined(Before(t, s, n), After(t, s, n)) == Whole(t, s)
  {
    FiltersSplit(Of(t.markets, s), n);
    FiltersSplit(Of(t.orders, s), n + 1);
    FiltersSplit(Of(t.snapshots, s), n);
    SplitItems(Of(t.markets, s), n);
    SplitItems(Of(t.orders, s), n + 1);
    SplitItems(Of(t.snapshots, s), n);
  }

  lemma ItemsOfTwo<T>(a: seq<Row<T>>, b: seq<Row<T>>)
    ensures Items(a + b) == Items(a) + Items(b)
  {}

  lemma SplitItems<T>(rows: seq<Row<T>>, n: int)
    requires Below(rows, n) + From(rows, n) == rows
    ensures Items(Below(rows, n)) + Items(From(rows, n)) == Items(rows)
  {
    ItemsOfTwo(Below(rows, n), From(rows, n));
  }

  lemma {:induction false} OfKeepsUnique(rows: seq<Row<MarketBar>>, s: int)
    requires forall i, j :: 0 <= i < j < |rows| ==> rows[i].item.providerId != rows[j].item.providerId
    ensures forall i, j :: 0 <= i < j < |Of(rows, s)| ==>
              Of(rows, s)[i].item.providerId != Of(rows, s)[j].item.providerId
  {
    if rows != [] {
      var front, last := rows[..|rows| - 1], rows[|rows| - 1];
      OfKeepsUnique(front, s);
      OfMembers(front, s);
      var kept := Of(front, s);
      forall i | 0 <= i < |kept| ensures kept[i].item.providerId != last.item.providerId {
        assert kept[i] in Of(front, s);
        var j :| 0 <= j < |front| && front[j] == kept[i];
        assert rows[j] == front[j];
      }
      assert Of(rows, s) == kept || Of(rows, s) == kept + [last];
    }
  }

  lemma WholeHasUniqueIds(t: Store, s: int)
    requires KeysOk(t)
    ensures UniqueIds(Whole(t, s))
  {
    OfKeepsUnique(t.markets, s);
  }

  // ----- Storing an order event again -----

  function One(order: BrokerOrder): Ledger { Ledger([], [order], []) }

  lemma EventsOfOne(order: BrokerOrder)
    ensures Events(One(order)) == [OrderEvent(order)]
  {
    var es := [OrderEvent(order)];
    assert Rows(One(order)) == es && Front(es) == [];
    assert Sorted(es) == Insert(Sorted(Front(es)), Last(es));
  }

  lemma LastOfOne(order: BrokerOrder, f: Event -> bool)
    ensures LastOf(Events(One(order)), f) == if f(OrderEvent(order)) then Some(OrderEvent(order)) else None
  {
    EventsOfOne(order);
    assert Front([OrderEvent(order)]) == [];
  }

  lemma LastAfterOne(l: Ledger, order: BrokerOrder, f: Event -> bool)
    requires KeyClass(f)
    ensures LastOf(Events(WithOrder(l, order)), f) ==
            Latest(LastOf(Events(l), f), if f(OrderEvent(order)) then Some(OrderEvent(order)) else None)
  {
    assert Joined(l, One(order)) == WithOrder(l, order);
    JoinedIsMerged(l, One(order));
    LastOfOne(order, f);
    LastOfMerged(Events(l), Events(One(order)), Events(WithOrder(l, order)), f);
  }

  /** One more order event leaves the bars and the positions alone. */
  lemma OthersAfterOne(l: Ledger, order: BrokerOrder)
    requires UniqueIds(l)
    ensures Clean(WithOrder(l, order)).providerIds == Clean(l).providerIds
    ensures Clean(WithOrder(l, order)).positions == Clean(l).positions
    ensures forall c :: c != order.clientId ==>
              Lookup(Clean(WithOrder(l, order)).orders, c) == Lookup(Clean(l).orders, c)
  {
    assert Joined(l, One(order)) == WithOrder(l, order);
    OrderedMarkets(l, One(order));
    EventsOfOne(order);
    MarketsMembers([OrderEvent(order)]);
    assert Markets(Events(One(order))) == [];
    CleanIds(l);
    CleanIds(WithOrder(l, order));
    LastAfterOne(l, order, IsPosition());
    ReplayedRest(EMPTY, Events(l));
    ReplayedRest(EMPTY, Events(WithOrder(l, order)));
    forall c | c != order.clientId ensures Lookup(Clean(WithOrder(l, order)).orders, c) == Lookup(Clean(l).orders, c) {
      LastAfterOne(l, order, IsOrderOf(c));
    }
  }

  lemma ClockAfterOne(l: Ledger, order: BrokerOrder)
    requires OrderEvent(order) in Events(l)
    ensures Clean(WithOrder(l, order)).lastEventAt == Clean(l).lastEventAt
  {
    SortedIsStable(Rows(l));
    LastOfFacts(Events(l), Anything());
    LastAfterOne(l, order, Anything());
    LastIsOf(Events(l));
    LastIsOf(Events(WithOrder(l, order)));
    ReplayedRest(EMPTY, Events(l));
    ReplayedRest(EMPTY, Events(WithOrder(l, order)));
  }

  /** The status recovered for the order is that of the repeated event, unless a later one is stored. */
  lemma StatusAfterOne(l: Ledger, order: BrokerOrder)
    requires OrderEvent(order) in Events(l)
    ensures var last := LastOf(Events(l), IsOrderOf(order.clientId));
            && last.Some? && last.value.OrderEvent?
            && Lookup(Clean(l).orders, order.clientId) == Some((last.value.order.status, last.value.order.filled))
            && Lookup(Clean(WithOrder(l, order)).orders, order.clientId) ==
               (if last.value.order.updatedAt > order.updatedAt
                then Some((last.value.order.status, last.value.order.filled))
                else Some((order.status, order.filled)))
  {
    SortedIsStable(Rows(l));
    LastOfFacts(Events(l), IsOrderOf(order.clientId));
    LastAfterOne(l, order, IsOrderOf(order.clientId));
    ReplayedRest(EMPTY, Events(l));
    ReplayedRest(EMPTY, Events(WithOrder(l, order)));
  }

  lemma StoredIsReplayed(l: Ledger, order: BrokerOrder)
    requires order in l.orders
    ensures OrderEvent(order) in Events(l)
  {
    var i :| 0 <= i < |l.orders| && l.orders[i] == order;
    assert Rows(l)[|l.markets| + i] == OrderEvent(order);
    SortedMembers(Rows(l));
  }

  /** An order event stored again is harmless exactly when a later event of the same order is
      stored, or the last one stored says the same. */
  lemma HarmlessIff(l: Ledger, order: BrokerOrder)
    requires UniqueIds(l) && order in l.orders
    ensures var last := LastOf(Events(l), IsOrderOf(order.clientId));
            && last.Some? && last.value.OrderEvent?
            && (Harmless(l, order) <==>
                last.value.order.updatedAt > order.updatedAt ||
                (last.value.order.status == order.status && last.value.order.filled == order.filled))
  {
    StoredIsReplayed(l, order);
    StatusAfterOne(l, order);
    OthersAfterOne(l, order);
    ClockAfterOne(l, order);
    var once, twice := Clean(l), Clean(WithOrder(l, order));
    if Lookup(twice.orders, order.clientId) == Lookup(once.orders, order.clientId) {
      forall c ensures Lookup(twice.orders, c) == Lookup(once.orders, c) {}
      SameMaps(twice.orders, once.orders);
      assert twice == once;
    }
  }

  /** Two updates of one order at the same time with different outcomes: after both are stored,
      the first one is a harmful repeat. */
  lemma RepeatedUpdateIsHarmful(first: BrokerOrder, second: BrokerOrder)
    requires first.clientId == second.clientId && first.updatedAt == second.updatedAt
    requires first.status != second.status || first.filled != second.filled
    ensures !Harmless(Ledger([], [first, second], []), first)
  {
    var l := Ledger([], [first, second], []);
    EventsOfTwo(first, second);
    HarmlessIff(l, first);
  }

  lemma EventsOfTwo(first: BrokerOrder, second: BrokerOrder)
    requires first.clientId == second.clientId && first.updatedAt == second.updatedAt
    ensures var l := Ledger([], [first, second], []);
            LastOf(Events(l), IsOrderOf(first.clientId)) == Some(OrderEvent(second))
  {
    var l := Ledger([], [first, second], []);
    var es := [OrderEvent(first), OrderEvent(second)];
    assert Rows(l) == es && Front(es) == [OrderEvent(first)] && Front([OrderEvent(first)]) == [];
    assert Sorted(Front(es)) == [OrderEvent(first)];
    assert Sorted(es) == es;
  }
}
