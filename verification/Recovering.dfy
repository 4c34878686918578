/** What a clean replay recovers, read off the tables themselves. */
module Recovering {
  import opened Wrappers
  import opened Accounts
  import opened Evidence
  import opened Replay
  import opened Resumption

  // ----- Processed bars -----

  /** The first of two bars in time, and by provider id at the same time. */
  predicate Earlier(x: MarketBar, y: MarketBar) {
    x.availableAt < y.availableAt || (x.availableAt == y.availableAt && x.providerId < y.providerId)
  }

  lemma PlaceOfBar(l: Ledger, x: MarketBar, p: nat)
    requires UniqueIds(l) && x in l.markets && p < |Clean(l).providerIds| && Clean(l).providerIds[p] == x.providerId
    ensures p < |Markets(Events(l))| && Markets(Events(l))[p] == MarketEvent(x)
  {
    CleanIds(l);
    var i :| 0 <= i < |l.markets| && l.markets[i] == x;
    MarketOfEvents(l, Markets(Events(l))[p]);
    assert Markets(Events(l))[p] in Markets(Events(l));
  }

  lemma InPlace(es: seq<Event>, p: nat, q: nat)
    requires Ordered(es) && p < |es| && q < |es| && es[p] != es[q] && !Leq(es[q], es[p])
    ensures p < q
  {}

  /** Of two bars the earlier one is recovered first. */
  lemma RecoveredInOrder(l: Ledger, x: MarketBar, y: MarketBar, p: nat, q: nat)
    requires UniqueIds(l) && x in l.markets && y in l.markets && Earlier(x, y)
    requires p < |Clean(l).providerIds| && Clean(l).providerIds[p] == x.providerId
    requires q < |Clean(l).providerIds| && Clean(l).providerIds[q] == y.providerId
    ensures p < q
  {
    SortedIsStable(Rows(l));
    MarketsOrdered(Events(l));
    PlaceOfBar(l, x, p);
    PlaceOfBar(l, y, q);
    InPlace(Markets(Events(l)), p, q);
  }

  /** Every bar is recovered, and nothing else, and each once. */
  lemma RecoveredBars(l: Ledger)
    requires UniqueIds(l)
    ensures forall id :: id in Clean(l).providerIds <==>
            exists i :: 0 <= i < |l.markets| && l.markets[i].providerId == id
    ensures forall p, q :: 0 <= p < q < |Clean(l).providerIds| ==> Clean(l).providerIds[p] != Clean(l).providerIds[q]
  {
    var ids, bars := Clean(l).providerIds, Markets(Events(l));
    CleanIds(l);
    EventsDistinct(l);
    DistinctBars(Events(l));
    forall id ensures id in ids <==> exists i :: 0 <= i < |l.markets| && l.markets[i].providerId == id {
      if id in ids {
        var p :| 0 <= p < |ids| && ids[p] == id;
        assert bars[p] in bars;
        MarketOfEvents(l, bars[p]);
      }
      if i :| 0 <= i < |l.markets| && l.markets[i].providerId == id {
        MarketOfEvents(l, MarketEvent(l.markets[i]));
        var p :| 0 <= p < |bars| && bars[p] == MarketEvent(l.markets[i]);
        assert ids[p] == id;
      }
    }
  }

  lemma {:induction false} DistinctBars(es: seq<Event>)
    requires DistinctMarkets(es)
    ensures forall p, q :: 0 <= p < q < |Markets(es)| ==> Markets(es)[p].Identity() != Markets(es)[q].Identity()
  {
    if es != [] {
      DistinctBars(Front(es));
      MarketsMembers(Front(es));
      var before := Markets(Front(es));
      forall p | 0 <= p < |before| && Last(es).MarketEvent? ensures before[p].Identity() != Last(es).Identity() {
        assert before[p] in before;
      }
    }
  }

  // ----- The last event of a class -----

  /** The last row with a key comes last among the rows with that key. */
  lemma {:induction false} LastWithKey(es: seq<Event>, n: nat, k: Event)
    requires n < |es| && SameKey(es[n], k) && forall m :: n < m < |es| ==> !SameKey(es[m], k)
    ensures Same(es, k) != [] && Last(Same(es, k)) == es[n]
  {
    if n < |es| - 1 {
      LastWithKey(Front(es), n, k);
    }
  }

  /** A row of a class that no row of the class sorts after is the last of its class to be replayed. */
  lemma LastRow(l: Ledger, f: Event -> bool, n: nat)
    requires KeyClass(f) && n < |Rows(l)| && f(Rows(l)[n])
    requires forall m :: 0 <= m < |Rows(l)| && f(Rows(l)[m]) ==>
               Leq(Rows(l)[m], Rows(l)[n]) && (SameKey(Rows(l)[m], Rows(l)[n]) ==> m <= n)
    ensures LastOf(Events(l), f) == Some(Rows(l)[n])
  {
    var rows, y := Rows(l), Rows(l)[n];
    SortedIsStable(rows);
    SortedMembers(rows);
    forall z | z in Events(l) && f(z) ensures Leq(z, y) {
      var m :| 0 <= m < |rows| && rows[m] == z;
    }
    assert y in rows;
    LastOfIsLastSame(Events(l), f, y);
    LastWithKey(rows, n, y);
    assert Same(Events(l), y) == Same(rows, y);
  }

  lemma NoRow(l: Ledger, f: Event -> bool)
    requires forall m :: 0 <= m < |Rows(l)| ==> !f(Rows(l)[m])
    ensures LastOf(Events(l), f) == None
  {
    SortedIsStable(Rows(l));
    SortedMembers(Rows(l));
    LastOfFacts(Events(l), f);
  }

  // ----- Orders -----

  /** The newest update of a client order, the last one stored among updates of the same time. */
  predicate NewestUpdate(orders: seq<BrokerOrder>, i: nat) {
    i < |orders| && forall j :: 0 <= j < |orders| && orders[j].clientId == orders[i].clientId ==>
      orders[j].updatedAt < orders[i].updatedAt || (orders[j].updatedAt == orders[i].updatedAt && j <= i)
  }

  /** The recovered status of a client order is that of its newest update. */
  lemma RecoveredOrder(l: Ledger, i: nat)
    requires NewestUpdate(l.orders, i)
    ensures Lookup(Clean(l).orders, l.orders[i].clientId) == Some((l.orders[i].status, l.orders[i].filled))
  {
    var f := IsOrderOf(l.orders[i].clientId);
    var n := |l.markets| + i;
    assert Rows(l)[n] == OrderEvent(l.orders[i]);
    forall m | 0 <= m < |Rows(l)| && f(Rows(l)[m])
      ensures Leq(Rows(l)[m], Rows(l)[n]) && (SameKey(Rows(l)[m], Rows(l)[n]) ==> m <= n)
    {
      assert Rows(l)[m] == OrderEvent(l.orders[m - |l.markets|]);
    }
    LastRow(l, f, n);
    ReplayedRest(EMPTY, Events(l));
  }

  lemma NoRecoveredOrder(l: Ledger, client: int)
    requires forall i :: 0 <= i < |l.orders| ==> l.orders[i].clientId != client
    ensures client !in Clean(l).orders
  {
    NoRow(l, IsOrderOf(client));
    ReplayedRest(EMPTY, Events(l));
    assert Lookup(Clean(l).orders, client) == None;
  }

  // ----- Positions -----

  /** The newest snapshot: by time, then by id, then by store order. */
  predicate NewestSnapshot(snapshots: seq<Snapshot>, i: nat) {
    i < |snapshots| && forall j :: 0 <= j < |snapshots| ==>
      || snapshots[j].observedAt < snapshots[i].observedAt
      || (snapshots[j].observedAt == snapshots[i].observedAt &&
          (snapshots[j].id < snapshots[i].id || (snapshots[j].id == snapshots[i].id && j <= i)))
  }

  /** The recovered positions are those of the newest snapshot; without one there are none. */
  lemma RecoveredPositions(l: Ledger, i: nat)
    ensures l.snapshots == [] ==> Clean(l).positions == map[]
    ensures NewestSnapshot(l.snapshots, i) ==> Clean(l).positions == l.snapshots[i].positions
  {
    var f := IsPosition();
    var n := |l.markets| + |l.orders| + i;
    ReplayedRest(EMPTY, Events(l));
    if l.snapshots == [] {
      NoRow(l, f);
    } else if NewestSnapshot(l.snapshots, i) {
      assert Rows(l)[n] == PositionEvent(l.snapshots[i]);
      forall m | 0 <= m < |Rows(l)| && f(Rows(l)[m])
        ensures Leq(Rows(l)[m], Rows(l)[n]) && (SameKey(Rows(l)[m], Rows(l)[n]) ==> m <= n)
      {
        assert Rows(l)[m] == PositionEvent(l.snapshots[m - |l.markets| - |l.orders|]);
      }
      LastRow(l, f, n);
    }
  }

  // ----- The clock -----

  /** The recovered clock stands at the newest piece of evidence. */
  lemma RecoveredClock(l: Ledger)
    ensures Clean(l).lastEventAt.None? <==> Rows(l) == []
    ensures Clean(l).lastEventAt.Some? ==>
              && (exists e :: e in Rows(l) && e.At() == Clean(l).lastEventAt.value)
              && (forall e :: e in Rows(l) ==> e.At() <= Clean(l).lastEventAt.value)
  {
    var es := Events(l);
    SortedIsStable(Rows(l));
    SortedMembers(Rows(l));
    ReplayedRest(EMPTY, es);
    if es != [] {
      assert Last(es) in es;
      forall e | e in Rows(l) ensures e.At() <= Last(es).At() {
        var i :| 0 <= i < |es| && es[i] == e;
        assert i < |es| - 1 ==> Leq(es[i], es[|es| - 1]);
      }
    }
  }
}
