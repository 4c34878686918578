/** Replaying evidence, and when resuming from a checkpoint gives what a clean replay gives. */
module Replay {
  import opened Wrappers
  import opened Accounts
  import opened Orders
  import opened Evidence

  /** What a replay recovers.  The sorted tuples of the program are the maps they list. */
  datatype Recovered =
    Recovered(providerIds: seq<int>, orders: map<int, (OrderStatus, int)>, positions: map<Symbol, int>,
              lastEventAt: Option<int>)

  const EMPTY := Recovered([], map[], map[], None)

  function Step(s: Recovered, e: Event): Recovered {
    (match e
     case MarketEvent(bar) =>
       if bar.providerId in s.providerIds then s else s.(providerIds := s.providerIds + [bar.providerId])
     case OrderEvent(order) => s.(orders := s.orders[order.clientId := (order.status, order.filled)])
     case PositionEvent(snapshot) => s.(positions := snapshot.positions)).(lastEventAt := Some(e.At()))
  }

  function Replayed(s: Recovered, es: seq<Event>): Recovered {
    if es == [] then s else Step(Replayed(s, Front(es)), Last(es))
  }

  /** The replay loop. */
  method ApplyEvents(initial: Option<Recovered>, events: seq<Event>) returns (r: Recovered)
    ensures r == Replayed(if initial.Some? then initial.value else EMPTY, events)
  {
    var start := if initial.Some? then initial.value else EMPTY;
    var providerIds := start.providerIds;
    var seen := set i | 0 <= i < |providerIds| :: providerIds[i];
    var orders, positions, lastEventAt := start.orders, start.positions, start.lastEventAt;
    for i := 0 to |events|
      invariant Recovered(providerIds, orders, positions, lastEventAt) == Replayed(start, events[..i])
      invariant forall id :: id in seen <==> id in providerIds
    {
      assert Front(events[..i + 1]) == events[..i];
      match events[i] {
        case MarketEvent(bar) =>
          if bar.providerId !in seen {
            seen := seen + {bar.providerId};
            providerIds := providerIds + [bar.providerId];
          }
        case OrderEvent(order) => orders := orders[order.clientId := (order.status, order.filled)];
        case PositionEvent(snapshot) => positions := snapshot.positions;
      }
      lastEventAt := Some(events[i].At());
    }
    assert events[..|events|] == events;
    return Recovered(providerIds, orders, positions, lastEventAt);
  }

  lemma {:induction false} ReplayedTwice(s: Recovered, a: seq<Event>, b: seq<Event>)
    ensures Replayed(s, a + b) == Replayed(Replayed(s, a), b)
    decreases |b|
  {
    if b == [] {
      assert a + b == a;
    } else {
      ReplayedTwice(s, a, Front(b));
      assert Front(a + b) == a + Front(b);
    }
  }

  function Clean(l: Ledger): Recovered { Replayed(EMPTY, Events(l)) }

  function Resumed(earlier: Ledger, later: Ledger): Recovered {
    Replayed(Clean(earlier), Events(later))
  }

  /** Resuming equals replaying when no later evidence sorts before earlier evidence; equal keys
      are no obstacle. */
  lemma ResumingEqualsReplaying(earlier: Ledger, later: Ledger)
    requires forall x, y :: x in Rows(earlier) && y in Rows(later) ==> Leq(x, y)
    ensures Resumed(earlier, later) == Clean(Joined(earlier, later))
  {
    EventsOfJoined(earlier, later);
    ReplayedTwice(EMPTY, Events(earlier), Events(later));
  }

  // ----- Exactly when -----

  /** The last event of a class. */
  function LastOf(es: seq<Event>, f: Event -> bool): Option<Event> {
    if es == [] then None else if f(Last(es)) then Some(Last(es)) else LastOf(Front(es), f)
  }

  function IsOrderOf(client: int): Event -> bool {
    (e: Event) => e.OrderEvent? && e.order.clientId == client
  }

  function IsPosition(): Event -> bool { (e: Event) => e.PositionEvent? }

  function Anything(): Event -> bool { (e: Event) => true }

  /** The later of two events by their keys, the second among equals. */
  function Latest(a: Option<Event>, b: Option<Event>): Option<Event> {
    if b.None? then a else if a.Some? && !Leq(a.value, b.value) then a else b
  }

  lemma {:induction false} LastOfFacts(es: seq<Event>, f: Event -> bool)
    requires Ordered(es)
    ensures LastOf(es, f).None? <==> forall x :: x in es ==> !f(x)
    ensures LastOf(es, f).Some? ==>
              && LastOf(es, f).value in es && f(LastOf(es, f).value)
              && (forall x :: x in es && f(x) ==> Leq(x, LastOf(es, f).value))
  {
    if es != [] {
      LastOfFacts(Front(es), f);
      assert es == Front(es) + [Last(es)];
      forall x | x in Front(es) ensures Leq(x, Last(es)) {
        var i :| 0 <= i < |Front(es)| && Front(es)[i] == x;
        assert es[i] == x;
      }
    }
  }

  /** A class of events that equal keys cannot tell apart. */
  ghost predicate KeyClass(f: Event -> bool) {
    forall x, y :: SameKey(x, y) ==> f(x) == f(y)
  }

  ghost predicate Merged(a: seq<Event>, b: seq<Event>, all: seq<Event>) {
    && Ordered(a) && Ordered(b) && Ordered(all)
    && (forall x :: x in all <==> x in a || x in b)
    && (forall k :: Same(all, k) == Same(a, k) + Same(b, k))
  }

  /** Among the events with its key, the last of the class comes last. */
  lemma {:induction false} LastOfIsLastSame(es: seq<Event>, f: Event -> bool, y: Event)
    requires Ordered(es) && KeyClass(f) && f(y) && y in es && forall z :: z in es && f(z) ==> Leq(z, y)
    ensures Same(es, y) != [] && LastOf(es, f) == Some(Last(Same(es, y)))
  {
    if !f(Last(es)) {
      assert es == Front(es) + [Last(es)];
      LastOfIsLastSame(Front(es), f, y);
    } else {
      LastIsGreatest(es, y);
      LeqLeqSame(Last(es), y);
    }
  }

  lemma LastIsGreatest(es: seq<Event>, y: Event)
    requires Ordered(es) && y in es
    ensures Leq(y, Last(es))
  {
    var i :| 0 <= i < |es| && es[i] == y;
  }

  lemma NothingWithKey(es: seq<Event>, k: Event)
    requires forall x :: x in es ==> !SameKey(x, k)
    ensures Same(es, k) == []
  {
    SameIsMember(es, k);
  }

  lemma LeqLeqSame(x: Event, y: Event)
    requires Leq(x, y) && Leq(y, x)
    ensures SameKey(x, y)
  {}

  lemma LatestIsGreatest(a: seq<Event>, b: seq<Event>, f: Event -> bool)
    requires Ordered(a) && Ordered(b)
    ensures var best := Latest(LastOf(a, f), LastOf(b, f));
            && (best.None? <==> forall z :: z in a || z in b ==> !f(z))
            && (best.Some? ==>
                  && (best.value in a || best.value in b) && f(best.value)
                  && forall z :: (z in a || z in b) && f(z) ==> Leq(z, best.value))
  {
    LastOfFacts(a, f);
    LastOfFacts(b, f);
  }

  /** In the merged list the latest comes last among the events with its key. */
  lemma LatestIsLast(a: seq<Event>, b: seq<Event>, f: Event -> bool, y: Event)
    requires Ordered(a) && Ordered(b) && KeyClass(f) && Latest(LastOf(a, f), LastOf(b, f)) == Some(y)
    ensures Same(a, y) + Same(b, y) != [] && Last(Same(a, y) + Same(b, y)) == y
  {
    LastOfFacts(a, f);
    LastOfFacts(b, f);
    if LastOf(b, f) == Some(y) {
      LastOfIsLastSame(b, f, y);
    } else {
      LastOfIsLastSame(a, f, y);
      NothingLater(b, f, y);
    }
  }

  lemma LastOfMerged(a: seq<Event>, b: seq<Event>, all: seq<Event>, f: Event -> bool)
    requires Merged(a, b, all) && KeyClass(f)
    ensures LastOf(all, f) == Latest(LastOf(a, f), LastOf(b, f))
  {
    LatestIsGreatest(a, b, f);
    var best := Latest(LastOf(a, f), LastOf(b, f));
    if best.Some? {
      LatestIsLast(a, b, f, best.value);
      LastOfIsLastSame(all, f, best.value);
    } else {
      LastOfFacts(all, f);
    }
  }

  lemma NotSame(x: Event, y: Event, last: Event)
    requires Leq(x, last) && !Leq(y, last)
    ensures !SameKey(x, y)
  {}

  lemma NothingLater(b: seq<Event>, f: Event -> bool, y: Event)
    requires Ordered(b) && KeyClass(f) && f(y) && (LastOf(b, f).Some? ==> !Leq(y, LastOf(b, f).value))
    ensures Same(b, y) == []
  {
    LastOfFacts(b, f);
    forall x | x in b ensures !SameKey(x, y) {
      if f(x) {
        NotSame(x, y, LastOf(b, f).value);
      }
    }
    NothingWithKey(b, y);
  }

  lemma RowsOfJoined(a: Ledger, b: Ledger, x: Event)
    ensures x in Rows(Joined(a, b)) <==> x in Rows(a) || x in Rows(b)
  {
    var all := Joined(a, b);
    assert MarketRows(all.markets) == MarketRows(a.markets) + MarketRows(b.markets);
    assert OrderRows(all.orders) == OrderRows(a.orders) + OrderRows(b.orders);
    assert SnapshotRows(all.snapshots) == SnapshotRows(a.snapshots) + SnapshotRows(b.snapshots);
  }

  lemma JoinedIsMerged(a: Ledger, b: Ledger)
    ensures Merged(Events(a), Events(b), Events(Joined(a, b)))
  {
    var all := Joined(a, b);
    SortedIsStable(Rows(a));
    SortedIsStable(Rows(b));
    SortedIsStable(Rows(all));
    SortedMembers(Rows(a));
    SortedMembers(Rows(b));
    SortedMembers(Rows(all));
    forall x ensures x in Events(all) <==> x in Events(a) || x in Events(b) {
      RowsOfJoined(a, b, x);
    }
    forall k ensures Same(Events(all), k) == Same(Events(a), k) + Same(Events(b), k) {
      JoinedSame(a, b, k);
    }
  }

  // ----- What a replay leaves behind -----

  function Markets(es: seq<Event>): seq<Event> {
    if es == [] then [] else Markets(Front(es)) + (if Last(es).MarketEvent? then [Last(es)] else [])
  }

  function Ids(markets: seq<Event>): (ids: seq<int>)
    ensures |ids| == |markets| && forall i :: 0 <= i < |ids| ==> ids[i] == markets[i].Identity()
  {
    seq(|markets|, i requires 0 <= i < |markets| => markets[i].Identity())
  }

  /** No provider id occurs twice, nor among `ids`. */
  ghost predicate FreshIds(ids: seq<int>, es: seq<Event>) {
    && (forall i :: 0 <= i < |es| && es[i].MarketEvent? ==> es[i].Identity() !in ids)
    && (forall i, j :: 0 <= i < j < |es| && es[i].MarketEvent? && es[j].MarketEvent? ==>
          es[i].Identity() != es[j].Identity())
  }

  function StatusOf(e: Option<Event>, otherwise: Option<(OrderStatus, int)>): Option<(OrderStatus, int)> {
    if e.Some? && e.value.OrderEvent? then Some((e.value.order.status, e.value.order.filled)) else otherwise
  }

  function PositionsOf(e: Option<Event>, otherwise: map<Symbol, int>): map<Symbol, int> {
    if e.Some? && e.value.PositionEvent? then e.value.snapshot.positions else otherwise
  }

  lemma {:induction false} MarketsMembers(es: seq<Event>)
    ensures forall x :: x in Markets(es) <==> x in es && x.MarketEvent?
  {
    if es != [] {
      MarketsMembers(Front(es));
      assert es == Front(es) + [Last(es)];
    }
  }

  lemma {:induction false} ReplayedIds(s: Recovered, es: seq<Event>)
    requires FreshIds(s.providerIds, es)
    ensures Replayed(s, es).providerIds == s.providerIds + Ids(Markets(es))
  {
    if es == [] {
      assert Ids(Markets(es)) == [];
    } else {
      ReplayedIds(s, Front(es));
      MarketsMembers(Front(es));
      var before := Markets(Front(es));
      if Last(es).MarketEvent? {
        assert Ids(before + [Last(es)]) == Ids(before) + [Last(es).Identity()];
        forall i | 0 <= i < |before| ensures before[i].Identity() != Last(es).Identity() {
          assert before[i] in Front(es);
        }
      }
    }
  }

  lemma {:induction false} ReplayedRest(s: Recovered, es: seq<Event>)
    ensures Replayed(s, es).lastEventAt == if es == [] then s.lastEventAt else Some(Last(es).At())
    ensures Replayed(s, es).positions ==
            PositionsOf(LastOf(es, IsPosition()), s.positions)
    ensures forall c :: Lookup(Replayed(s, es).orders, c) ==
              StatusOf(LastOf(es, IsOrderOf(c)), Lookup(s.orders, c))
  {
    if es != [] {
      ReplayedRest(s, Front(es));
    }
  }
}
