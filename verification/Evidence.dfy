/** Replay evidence and its causal order: by time, then kind, then identity, and store order among
    equals.  Sorting is specified independently of any algorithm and shown to be unique. */
module Evidence {
  import opened Orders
  import opened Accounts

  datatype OrderStatus = Submitted | Accepted | PartiallyFilled | Filled | Cancelled | Expired | Rejected

  /** Identities are integers: only their order matters.  `detail` stands for the remaining fields. */
  datatype MarketBar = MarketBar(providerId: int, availableAt: int, detail: int)

  datatype BrokerOrder =
    BrokerOrder(clientId: int, symbol: Symbol, side: Side, orderType: OrderType, quantity: int,
                status: OrderStatus, filled: int, submittedAt: int, updatedAt: int, detail: int)

  datatype Snapshot = Snapshot(id: int, session: int, positions: map<Symbol, int>, observedAt: int, detail: int)

  datatype Event = MarketEvent(bar: MarketBar) | OrderEvent(order: BrokerOrder) | PositionEvent(snapshot: Snapshot) {
    function At(): int {
      match this
      case MarketEvent(bar) => bar.availableAt
      case OrderEvent(order) => order.updatedAt
      case PositionEvent(snapshot) => snapshot.observedAt
    }

    function Kind(): int {
      match this case MarketEvent(_) => 0 case OrderEvent(_) => 1 case PositionEvent(_) => 2
    }

    function Identity(): int {
      match this
      case MarketEvent(bar) => bar.providerId
      case OrderEvent(order) => order.clientId
      case PositionEvent(snapshot) => snapshot.id
    }
  }

  predicate Leq(a: Event, b: Event) {
    || a.At() < b.At()
    || (a.At() == b.At() && (a.Kind() < b.Kind() || (a.Kind() == b.Kind() && a.Identity() <= b.Identity())))
  }

  /** The order of the evidence: by time; at the same time bars, then orders, then positions; and within
      those by identity. */
  lemma LeqMeans(a: Event, b: Event)
    ensures a.At() < b.At() ==> Leq(a, b) && !Leq(b, a)
    ensures a.At() == b.At() && a.MarketEvent? && !b.MarketEvent? ==> Leq(a, b) && !Leq(b, a)
    ensures a.At() == b.At() && a.OrderEvent? && b.PositionEvent? ==> Leq(a, b) && !Leq(b, a)
    ensures a.MarketEvent? && b.MarketEvent? && a.bar.availableAt == b.bar.availableAt ==>
              (Leq(a, b) <==> a.bar.providerId <= b.bar.providerId)
    ensures a.OrderEvent? && b.OrderEvent? && a.order.updatedAt == b.order.updatedAt ==>
              (Leq(a, b) <==> a.order.clientId <= b.order.clientId)
    ensures a.PositionEvent? && b.PositionEvent? && a.snapshot.observedAt == b.snapshot.observedAt ==>
              (Leq(a, b) <==> a.snapshot.id <= b.snapshot.id)
  {}

  predicate SameKey(a: Event, b: Event) {
    a.At() == b.At() && a.Kind() == b.Kind() && a.Identity() == b.Identity()
  }

  predicate Ordered(es: seq<Event>) {
    forall i, j :: 0 <= i < j < |es| ==> Leq(es[i], es[j])
  }

  function Last(es: seq<Event>): Event
    requires es != []
  {
    es[|es| - 1]
  }

  function Front(es: seq<Event>): seq<Event>
    requires es != []
  {
    es[..|es| - 1]
  }

  /** The events with the key of `k`, in their order. */
  function Same(es: seq<Event>, k: Event): seq<Event> {
    if es == [] then [] else Same(Front(es), k) + (if SameKey(Last(es), k) then [Last(es)] else [])
  }

  /** `sorted` puts `rows` in order and keeps the order of events with equal keys. */
  ghost predicate IsStableSort(rows: seq<Event>, es: seq<Event>) {
    Ordered(es) && forall k :: Same(es, k) == Same(rows, k)
  }

  lemma {:induction false} SameOfTwo(a: seq<Event>, b: seq<Event>, k: Event)
    ensures Same(a + b, k) == Same(a, k) + Same(b, k)
    decreases |b|
  {
    if b == [] {
      assert a + b == a;
    } else {
      SameOfTwo(a, Front(b), k);
      assert Front(a + b) == a + Front(b);
    }
  }

  lemma {:induction false} SameIsMember(es: seq<Event>, k: Event)
    ensures Same(es, k) != [] <==> exists i :: 0 <= i < |es| && SameKey(es[i], k)
    ensures forall i :: 0 <= i < |Same(es, k)| ==> Same(es, k)[i] in es && SameKey(Same(es, k)[i], k)
  {
    if es != [] {
      SameIsMember(Front(es), k);
      if i :| 0 <= i < |es| && SameKey(es[i], k) {
        assert i < |es| - 1 ==> Front(es)[i] == es[i];
      }
      if i :| 0 <= i < |Front(es)| && SameKey(Front(es)[i], k) {
        assert es[i] == Front(es)[i];
      }
    }
  }

  lemma LastHasKey(es: seq<Event>)
    requires es != []
    ensures Same(es, Last(es)) != []
  {}

  /** The last event of an ordered list has the greatest key. */
  lemma SameLast(a: seq<Event>, b: seq<Event>)
    requires Ordered(a) && Ordered(b) && a != [] && b != []
    requires forall k :: Same(a, k) == Same(b, k)
    ensures SameKey(Last(a), Last(b))
  {
    SameIsMember(a, Last(a));
    SameIsMember(b, Last(a));
    SameIsMember(b, Last(b));
    SameIsMember(a, Last(b));
    assert SameKey(a[|a| - 1], Last(a)) && SameKey(b[|b| - 1], Last(b));
    var i :| 0 <= i < |b| && SameKey(b[i], Last(a));
    var j :| 0 <= j < |a| && SameKey(a[j], Last(b));
    assert Leq(b[i], Last(b)) || i == |b| - 1;
    assert Leq(a[j], Last(a)) || j == |a| - 1;
  }

  /** There is only one stable sort. */
  lemma {:induction false} StableSortIsUnique(a: seq<Event>, b: seq<Event>)
    requires Ordered(a) && Ordered(b) && forall k :: Same(a, k) == Same(b, k)
    ensures a == b
    decreases |a|
  {
    if a == [] {
      if b != [] {
        LastHasKey(b);
      }
    } else if b == [] {
      LastHasKey(a);
    } else {
      SameLast(a, b);
      var k := Last(a);
      assert Same(a, k)[|Same(a, k)| - 1] == Last(a);
      assert Same(b, k)[|Same(b, k)| - 1] == Last(b);
      forall k ensures Same(Front(a), k) == Same(Front(b), k) {
        var tail := if SameKey(Last(a), k) then [Last(a)] else [];
        assert Same(a, k) == Same(Front(a), k) + tail && Same(b, k) == Same(Front(b), k) + tail;
        assert |Same(Front(a), k)| == |Same(Front(b), k)|;
        assert Same(Front(a), k) == Same(a, k)[..|Same(Front(a), k)|];
        assert Same(Front(b), k) == Same(b, k)[..|Same(Front(b), k)|];
      }
      StableSortIsUnique(Front(a), Front(b));
      assert a == Front(a) + [Last(a)] && b == Front(b) + [Last(b)];
    }
  }

  // ----- A stable sort -----

  function Insert(es: seq<Event>, e: Event): seq<Event> {
    if es == [] || Leq(Last(es), e) then es + [e] else Insert(Front(es), e) + [Last(es)]
  }

  function Sorted(rows: seq<Event>): seq<Event> {
    if rows == [] then [] else Insert(Sorted(Front(rows)), Last(rows))
  }

  lemma {:induction false} InsertMembers(es: seq<Event>, e: Event)
    ensures |Insert(es, e)| == |es| + 1
    ensures forall x :: x in Insert(es, e) <==> x in es || x == e
  {
    if es != [] && !Leq(Last(es), e) {
      InsertMembers(Front(es), e);
      assert es == Front(es) + [Last(es)];
    }
  }

  lemma {:induction false} InsertOrdered(es: seq<Event>, e: Event)
    requires Ordered(es)
    ensures Ordered(Insert(es, e))
  {
    if es == [] {
    } else if Leq(Last(es), e) {
      assert forall i :: 0 <= i < |es| ==> Leq(es[i], Last(es)) || i == |es| - 1;
    } else {
      InsertOrdered(Front(es), e);
      InsertMembers(Front(es), e);
      var t := Insert(Front(es), e);
      forall i | 0 <= i < |t| ensures Leq(t[i], Last(es)) {
        assert t[i] in t;
      }
    }
  }

  lemma {:induction false} InsertStable(es: seq<Event>, e: Event, k: Event)
    requires Ordered(es)
    ensures Same(Insert(es, e), k) == Same(es + [e], k)
  {
    SameOfTwo(es, [e], k);
    if es != [] && !Leq(Last(es), e) {
      InsertStable(Front(es), e, k);
      SameOfTwo(Front(es), [e], k);
      SameOfTwo(Insert(Front(es), e), [Last(es)], k);
    }
  }

  lemma {:induction false} SortedIsStable(rows: seq<Event>)
    ensures IsStableSort(rows, Sorted(rows))
  {
    if rows != [] {
      SortedIsStable(Front(rows));
      InsertOrdered(Sorted(Front(rows)), Last(rows));
      forall k ensures Same(Sorted(rows), k) == Same(rows, k) {
        InsertStable(Sorted(Front(rows)), Last(rows), k);
        SameOfTwo(Sorted(Front(rows)), [Last(rows)], k);
        SameOfTwo(Front(rows), [Last(rows)], k);
        assert rows == Front(rows) + [Last(rows)];
      }
    }
  }

  lemma {:induction false} SortedMembers(rows: seq<Event>)
    ensures |Sorted(rows)| == |rows|
    ensures forall x :: x in Sorted(rows) <==> x in rows
  {
    if rows != [] {
      SortedMembers(Front(rows));
      InsertMembers(Sorted(Front(rows)), Last(rows));
      assert rows == Front(rows) + [Last(rows)];
    }
  }

  /** Whatever algorithm sorts stably, the result is `Sorted`. */
  lemma SortedIsTheStableSort(rows: seq<Event>, es: seq<Event>)
    ensures IsStableSort(rows, es) <==> es == Sorted(rows)
  {
    SortedIsStable(rows);
    if IsStableSort(rows, es) {
      StableSortIsUnique(es, Sorted(rows));
    }
  }

  // ----- Evidence -----

  /** The evidence of a session: the three tables, in store order. */
  datatype Ledger = Ledger(markets: seq<MarketBar>, orders: seq<BrokerOrder>, snapshots: seq<Snapshot>)

  function MarketRows(bars: seq<MarketBar>): (es: seq<Event>)
    ensures |es| == |bars| && forall i :: 0 <= i < |es| ==> es[i] == MarketEvent(bars[i])
  {
    seq(|bars|, i requires 0 <= i < |bars| => MarketEvent(bars[i]))
  }

  function OrderRows(orders: seq<BrokerOrder>): (es: seq<Event>)
    ensures |es| == |orders| && forall i :: 0 <= i < |es| ==> es[i] == OrderEvent(orders[i])
  {
    seq(|orders|, i requires 0 <= i < |orders| => OrderEvent(orders[i]))
  }

  function SnapshotRows(snapshots: seq<Snapshot>): (es: seq<Event>)
    ensures |es| == |snapshots| && forall i :: 0 <= i < |es| ==> es[i] == PositionEvent(snapshots[i])
  {
    seq(|snapshots|, i requires 0 <= i < |snapshots| => PositionEvent(snapshots[i]))
  }

  function Rows(l: Ledger): seq<Event> {
    MarketRows(l.markets) + OrderRows(l.orders) + SnapshotRows(l.snapshots)
  }

  /** The evidence in causal order. */
  function Events(l: Ledger): seq<Event> { Sorted(Rows(l)) }

  function Joined(a: Ledger, b: Ledger): Ledger {
    Ledger(a.markets + b.markets, a.orders + b.orders, a.snapshots + b.snapshots)
  }

  lemma OtherKind(es: seq<Event>, k: Event)
    requires forall i :: 0 <= i < |es| ==> es[i].Kind() != k.Kind()
    ensures Same(es, k) == []
  {
    SameIsMember(es, k);
  }

  /** Joining two ledgers table by table keeps, for every key, the first one's events first. */
  lemma JoinedSame(a: Ledger, b: Ledger, k: Event)
    ensures Same(Rows(Joined(a, b)), k) == Same(Rows(a), k) + Same(Rows(b), k)
  {
    assert MarketRows(a.markets + b.markets) == MarketRows(a.markets) + MarketRows(b.markets);
    assert OrderRows(a.orders + b.orders) == OrderRows(a.orders) + OrderRows(b.orders);
    assert SnapshotRows(a.snapshots + b.snapshots) == SnapshotRows(a.snapshots) + SnapshotRows(b.snapshots);
    SameOfTwo(MarketRows(a.markets), MarketRows(b.markets), k);
    SameOfTwo(OrderRows(a.orders), OrderRows(b.orders), k);
    SameOfTwo(SnapshotRows(a.snapshots), SnapshotRows(b.snapshots), k);
    RowsSame(a, k);
    RowsSame(b, k);
    RowsSame(Joined(a, b), k);
  }

  /** Only one table has events of a given key. */
  lemma RowsSame(l: Ledger, k: Event)
    ensures Same(Rows(l), k) == match k
                                case MarketEvent(_) => Same(MarketRows(l.markets), k)
                                case OrderEvent(_) => Same(OrderRows(l.orders), k)
                                case PositionEvent(_) => Same(SnapshotRows(l.snapshots), k)
  {
    SameOfTwo(MarketRows(l.markets) + OrderRows(l.orders), SnapshotRows(l.snapshots), k);
    SameOfTwo(MarketRows(l.markets), OrderRows(l.orders), k);
    if !k.MarketEvent? { OtherKind(MarketRows(l.markets), k); }
    if !k.OrderEvent? { OtherKind(OrderRows(l.orders), k); }
    if !k.PositionEvent? { OtherKind(SnapshotRows(l.snapshots), k); }
  }

  /** When nothing later sorts before anything earlier, the causal order is one after the other. */
  lemma EventsOfJoined(a: Ledger, b: Ledger)
    requires forall x, y :: x in Rows(a) && y in Rows(b) ==> Leq(x, y)
    ensures Events(Joined(a, b)) == Events(a) + Events(b)
  {
    SortedIsStable(Rows(a));
    SortedIsStable(Rows(b));
    SortedMembers(Rows(a));
    SortedMembers(Rows(b));
    var es := Events(a) + Events(b);
    forall i, j | 0 <= i < j < |es| ensures Leq(es[i], es[j]) {
      if i < |Events(a)| <= j {
        assert es[i] in Events(a) && es[j] in Events(b);
      }
    }
    forall k ensures Same(es, k) == Same(Rows(Joined(a, b)), k) {
      SameOfTwo(Events(a), Events(b), k);
      JoinedSame(a, b, k);
    }
    SortedIsTheStableSort(Rows(Joined(a, b)), es);
  }
}
