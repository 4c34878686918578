/** The paper ledger as a value: its tables, and what each transaction does to them.  A transaction
    that raises is a `Failure` and leaves no tables behind. */
module Tables {
  import opened Wrappers
  import opened Accounts
  import opened Orders
  import opened Evidence
  import opened Replay

  /** The content hash of a recovered state; the digest is taken to be injective. */
  datatype Digest = Sha256(session: int, state: Recovered)

  /** A row of evidence with the checkpoint generation it was stored under. */
  datatype Row<T> = Row(session: int, item: T, generation: int)

  /** Who wrote a checkpoint: the running session or its closeout. */
  datatype Origin = PaperSession | Closeout

  datatype CheckpointId = CheckpointId(origin: Origin, sequence: int, digest: Digest)

  datatype Checkpoint = Checkpoint(id: CheckpointId, session: int, sequence: int, stateHash: Digest, createdAt: int)

  datatype OrderIntent =
    OrderIntent(key: int, run: int, date: int, eligibleAt: int, symbol: Symbol, side: Side, orderType: OrderType,
                quantity: int, detail: int)

  datatype Decision = Decision(key: int, approved: bool, decidedAt: int, detail: int)

  datatype Store =
    Store(sessions: map<int, int>,
          intents: map<int, OrderIntent>,
          decisions: map<int, Decision>,
          markets: seq<Row<MarketBar>>,
          orders: seq<Row<BrokerOrder>>,
          snapshots: seq<Row<Snapshot>>,
          checkpoints: seq<Checkpoint>)

  datatype StoreError =
    | CircuitOpen
    | StorageFault
    | SessionNotFound
    | SessionDateMismatch
    | InvalidBundle
    | ProviderEventMismatch
    | IntentMismatch
    | DecisionMismatch
    | SnapshotConflict
    | CheckpointConflict
    | CheckpointGap

  type Written = Result<Store, StoreError>

  // ----- Queries -----

  /** The rows of one session, in store order. */
  function Of<T>(rows: seq<Row<T>>, session: int): seq<Row<T>> {
    if rows == [] then []
    else
      var last := rows[|rows| - 1];
      Of(rows[..|rows| - 1], session) + (if last.session == session then [last] else [])
  }

  /** Rows of a generation below `n`, and from `n` on. */
  function Below<T>(rows: seq<Row<T>>, n: int): seq<Row<T>> {
    if rows == [] then []
    else
      var last := rows[|rows| - 1];
      Below(rows[..|rows| - 1], n) + (if last.generation < n then [last] else [])
  }

  function From<T>(rows: seq<Row<T>>, n: int): seq<Row<T>> {
    if rows == [] then []
    else
      var last := rows[|rows| - 1];
      From(rows[..|rows| - 1], n) + (if last.generation >= n then [last] else [])
  }

  function Items<T>(rows: seq<Row<T>>): (items: seq<T>)
    ensures |items| == |rows| && forall i :: 0 <= i < |items| ==> items[i] == rows[i].item
  {
    seq(|rows|, i requires 0 <= i < |rows| => rows[i].item)
  }

  function CheckpointsOf(checkpoints: seq<Checkpoint>, session: int): seq<Checkpoint> {
    if checkpoints == [] then []
    else
      var last := checkpoints[|checkpoints| - 1];
      CheckpointsOf(checkpoints[..|checkpoints| - 1], session) + (if last.session == session then [last] else [])
  }

  /** The checkpoint with the greatest sequence. */
  function Greatest(checkpoints: seq<Checkpoint>): Option<Checkpoint> {
    if checkpoints == [] then None
    else
      var last := checkpoints[|checkpoints| - 1];
      var before := Greatest(checkpoints[..|checkpoints| - 1]);
      if before.Some? && before.value.sequence > last.sequence then before else Some(last)
  }

  function LatestCheckpoint(t: Store, session: int): Option<Checkpoint> {
    Greatest(CheckpointsOf(t.checkpoints, session))
  }

  function LatestSequence(t: Store, session: int): int {
    var latest := LatestCheckpoint(t, session);
    if latest.None? then 0 else latest.value.sequence
  }

  function FindMarket(rows: seq<Row<MarketBar>>, id: int): Option<Row<MarketBar>> {
    if rows == [] then None else if rows[0].item.providerId == id then Some(rows[0]) else FindMarket(rows[1..], id)
  }

  function FindSnapshot(rows: seq<Row<Snapshot>>, id: int): Option<Row<Snapshot>> {
    if rows == [] then None else if rows[0].item.id == id then Some(rows[0]) else FindSnapshot(rows[1..], id)
  }

  /** An order event is stored under the hash of its content. */
  predicate HasOrder(rows: seq<Row<BrokerOrder>>, order: BrokerOrder) {
    exists i :: 0 <= i < |rows| && rows[i].item == order
  }

  function FindCheckpoint(rows: seq<Checkpoint>, c: Checkpoint): Option<Checkpoint> {
    if rows == [] then None
    else if rows[0].id == c.id || (rows[0].session == c.session && rows[0].sequence == c.sequence) then Some(rows[0])
    else FindCheckpoint(rows[1..], c)
  }

  // ----- Transactions -----

  function AppendMarket(t: Store, session: int, bar: MarketBar): Written {
    if session !in t.sessions then Failure(SessionNotFound)
    else
      var row := FindMarket(t.markets, bar.providerId);
      if row.None? then Success(t.(markets := t.markets + [Row(session, bar, LatestSequence(t, session))]))
      else if row.value.session != session || row.value.item != bar then Failure(ProviderEventMismatch)
      else Success(t)
  }

  function AppendSnapshot(t: Store, snapshot: Snapshot): Written {
    if snapshot.session !in t.sessions then Failure(SessionNotFound)
    else
      var row := FindSnapshot(t.snapshots, snapshot.id);
      if row.None? then
        Success(t.(snapshots := t.snapshots + [Row(snapshot.session, snapshot, LatestSequence(t, snapshot.session))]))
      else if row.value.item != snapshot then Failure(SnapshotConflict)
      else Success(t)
  }

  predicate ValidBundle(intent: OrderIntent, decision: Decision, order: BrokerOrder, checkpoint: Checkpoint) {
    && decision.key == intent.key && decision.approved
    && order.clientId == intent.key
    && checkpoint.session == intent.run
    && order.submittedAt >= intent.eligibleAt
    && decision.decidedAt <= order.submittedAt
    && checkpoint.createdAt >= order.updatedAt
    && order.symbol == intent.symbol && order.side == intent.side
    && order.orderType == intent.orderType && order.quantity == intent.quantity
  }

  function PutIntent(t: Store, intent: OrderIntent): Written {
    if intent.key !in t.intents then Success(t.(intents := t.intents[intent.key := intent]))
    else if t.intents[intent.key] != intent then Failure(IntentMismatch)
    else Success(t)
  }

  function PutDecision(t: Store, decision: Decision): Written {
    if decision.key !in t.decisions then Success(t.(decisions := t.decisions[decision.key := decision]))
    else if t.decisions[decision.key] != decision then Failure(DecisionMismatch)
    else Success(t)
  }

  function PutOrder(t: Store, session: int, order: BrokerOrder, sequence: int): Store {
    if HasOrder(t.orders, order) then t else t.(orders := t.orders + [Row(session, order, sequence)])
  }

  function PutCheckpoint(t: Store, checkpoint: Checkpoint): Written {
    var row := FindCheckpoint(t.checkpoints, checkpoint);
    if row.Some? then if row.value != checkpoint then Failure(CheckpointConflict) else Success(t)
    else if checkpoint.sequence != LatestSequence(t, checkpoint.session) + 1 then Failure(CheckpointGap)
    else Success(t.(checkpoints := t.checkpoints + [checkpoint]))
  }

  function RecordBundle(t: Store, intent: OrderIntent, decision: Decision, order: BrokerOrder,
                        checkpoint: Checkpoint): Written {
    if !ValidBundle(intent, decision, order, checkpoint) then Failure(InvalidBundle)
    else if intent.run !in t.sessions then Failure(SessionNotFound)
    else if t.sessions[intent.run] != intent.date then Failure(SessionDateMismatch)
    else
      var withIntent :- PutIntent(t, intent);
      var withDecision :- PutDecision(withIntent, decision);
      PutCheckpoint(PutOrder(withDecision, intent.run, order, checkpoint.sequence), checkpoint)
  }

  // ----- Evidence of a session -----

  function Whole(t: Store, s: int): Ledger {
    Ledger(Items(Of(t.markets, s)), Items(Of(t.orders, s)), Items(Of(t.snapshots, s)))
  }

  /** What recovery takes to be behind checkpoint `n`. */
  function Before(t: Store, s: int, n: int): Ledger {
    Ledger(Items(Below(Of(t.markets, s), n)), Items(Below(Of(t.orders, s), n + 1)), Items(Below(Of(t.snapshots, s), n)))
  }

  /** What recovery takes to have come after it. */
  function After(t: Store, s: int, n: int): Ledger {
    Ledger(Items(From(Of(t.markets, s), n)), Items(From(Of(t.orders, s), n + 1)), Items(From(Of(t.snapshots, s), n)))
  }

  function WithOrder(l: Ledger, order: BrokerOrder): Ledger { l.(orders := l.orders + [order]) }

  /** The checkpoint that is written with an order: the next sequence and the hash of a
      replay of everything stored, with the order appended. */
  function NextCheckpoint(t: Store, s: int, origin: Origin, order: BrokerOrder, observedAt: int): Checkpoint {
    var digest := Sha256(s, Clean(WithOrder(Whole(t, s), order)));
    var sequence := LatestSequence(t, s) + 1;
    Checkpoint(CheckpointId(origin, sequence, digest), s, sequence, digest,
               if observedAt < order.updatedAt then order.updatedAt else observedAt)
  }

  function RecordSubmission(t: Store, s: int, origin: Origin, intent: OrderIntent, decision: Decision,
                            order: BrokerOrder, observedAt: int): Written
  {
    RecordBundle(t, intent, decision, order, NextCheckpoint(t, s, origin, order, observedAt))
  }
}
