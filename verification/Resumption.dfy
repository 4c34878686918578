/** The exact condition under which resuming from a checkpoint equals a clean replay. */
module Resumption {
  import opened Wrappers
  import opened Accounts
  import opened Evidence
  import opened Replay

  /** No provider id occurs twice. */
  predicate UniqueIds(l: Ledger) {
    forall i, j :: 0 <= i < j < |l.markets| ==> l.markets[i].providerId != l.markets[j].providerId
  }

  predicate DistinctMarkets(es: seq<Event>) {
    forall i, j :: 0 <= i < j < |es| && es[i].MarketEvent? && es[j].MarketEvent? ==>
      es[i].Identity() != es[j].Identity()
  }

  lemma {:induction false} InsertDistinct(es: seq<Event>, e: Event)
    requires DistinctMarkets(es)
    requires e.MarketEvent? ==> forall x :: x in es && x.MarketEvent? ==> x.Identity() != e.Identity()
    ensures DistinctMarkets(Insert(es, e))
  {
    if es != [] && !Leq(Last(es), e) {
      InsertDistinct(Front(es), e);
      InsertMembers(Front(es), e);
      var t := Insert(Front(es), e);
      forall i | 0 <= i < |t| && t[i].MarketEvent? && Last(es).MarketEvent?
        ensures t[i].Identity() != Last(es).Identity()
      {
        assert t[i] in Front(es) || t[i] == e;
      }
    }
  }

  lemma {:induction false} SortedDistinct(rows: seq<Event>)
    requires DistinctMarkets(rows)
    ensures DistinctMarkets(Sorted(rows))
  {
    if rows != [] {
      SortedDistinct(Front(rows));
      SortedMembers(Front(rows));
      InsertDistinct(Sorted(Front(rows)), Last(rows));
    }
  }

  lemma EventsDistinct(l: Ledger)
    requires UniqueIds(l)
    ensures DistinctMarkets(Events(l))
  {
    SortedDistinct(Rows(l));
  }

  // ----- Provider ids -----

  /** Every later bar sorts at or after every earlier one. */
  predicate MarketsInOrder(a: Ledger, b: Ledger) {
    forall i, j :: 0 <= i < |a.markets| && 0 <= j < |b.markets| ==>
      Leq(MarketEvent(a.markets[i]), MarketEvent(b.markets[j]))
  }

  lemma MarketOfRows(l: Ledger, x: Event)
    ensures x in Rows(l) && x.MarketEvent? <==> exists i :: 0 <= i < |l.markets| && x == MarketEvent(l.markets[i])
  {
    if i :| 0 <= i < |l.markets| && x == MarketEvent(l.markets[i]) {
      assert Rows(l)[i] == x;
    }
  }

  lemma MarketOfEvents(l: Ledger, x: Event)
    ensures x in Markets(Events(l)) <==> exists i :: 0 <= i < |l.markets| && x == MarketEvent(l.markets[i])
  {
    MarketsMembers(Events(l));
    SortedMembers(Rows(l));
    MarketOfRows(l, x);
  }

  lemma {:induction false} MarketsOrdered(es: seq<Event>)
    requires Ordered(es)
    ensures Ordered(Markets(es))
  {
    if es != [] {
      MarketsOrdered(Front(es));
      MarketsMembers(Front(es));
      var before := Markets(Front(es));
      forall i | 0 <= i < |before| ensures Leq(before[i], Last(es)) {
        assert before[i] in Front(es);
      }
    }
  }

  lemma {:induction false} MarketsSame(es: seq<Event>, k: Event)
    ensures Same(Markets(es), k) == if k.MarketEvent? then Same(es, k) else []
  {
    if es != [] {
      MarketsSame(Front(es), k);
      if Last(es).MarketEvent? {
        assert Front(Markets(Front(es)) + [Last(es)]) == Markets(Front(es));
      } else {
        assert Markets(es) == Markets(Front(es));
      }
      assert k.MarketEvent? <==> k.Kind() == 0;
      assert Last(es).MarketEvent? <==> Last(es).Kind() == 0;
    }
  }

  lemma MarketsMeetInOrder(a: Ledger, b: Ledger)
    requires MarketsInOrder(a, b)
    ensures Ordered(Markets(Events(a)) + Markets(Events(b)))
  {
    var ma, mb := Markets(Events(a)), Markets(Events(b));
    SortedIsStable(Rows(a));
    SortedIsStable(Rows(b));
    MarketsOrdered(Events(a));
    MarketsOrdered(Events(b));
    forall i, j | 0 <= i < |ma| && 0 <= j < |mb| ensures Leq(ma[i], mb[j]) {
      MarketOfEvents(a, ma[i]);
      MarketOfEvents(b, mb[j]);
      assert ma[i] in ma && mb[j] in mb;
    }
  }

  lemma MarketsOfBoth(a: Ledger, b: Ledger, k: Event)
    ensures Same(Markets(Events(Joined(a, b))), k) == Same(Markets(Events(a)) + Markets(Events(b)), k)
  {
    JoinedIsMerged(a, b);
    MarketsSame(Events(a), k);
    MarketsSame(Events(b), k);
    MarketsSame(Events(Joined(a, b)), k);
    SameOfTwo(Markets(Events(a)), Markets(Events(b)), k);
  }

  lemma OrderedMarkets(a: Ledger, b: Ledger)
    requires MarketsInOrder(a, b)
    ensures Markets(Events(Joined(a, b))) == Markets(Events(a)) + Markets(Events(b))
  {
    var all, both := Markets(Events(Joined(a, b))), Markets(Events(a)) + Markets(Events(b));
    MarketsMeetInOrder(a, b);
    SortedIsStable(Rows(Joined(a, b)));
    MarketsOrdered(Events(Joined(a, b)));
    forall k ensures Same(all, k) == Same(both, k) {
      MarketsOfBoth(a, b, k);
    }
    StableSortIsUnique(all, both);
  }

  lemma UniqueMarket(l: Ledger, x: Event, y: Event)
    requires UniqueIds(l) && x in Markets(Events(l)) && y in Markets(Events(l)) && x.Identity() == y.Identity()
    ensures x == y
  {
    MarketOfEvents(l, x);
    MarketOfEvents(l, y);
  }

  lemma MarketsOfJoined(a: Ledger, b: Ledger, x: Event)
    ensures x in Markets(Events(Joined(a, b))) <==> x in Markets(Events(a)) || x in Markets(Events(b))
  {
    JoinedIsMerged(a, b);
    MarketsMembers(Events(a));
    MarketsMembers(Events(b));
    MarketsMembers(Events(Joined(a, b)));
  }

  /** Equal lists of ids mean equal lists of bars. */
  lemma IdsTellOrder(a: Ledger, b: Ledger)
    requires UniqueIds(Joined(a, b))
    requires Ids(Markets(Events(Joined(a, b)))) == Ids(Markets(Events(a))) + Ids(Markets(Events(b)))
    ensures MarketsInOrder(a, b)
  {
    var all, ma, mb := Markets(Events(Joined(a, b))), Markets(Events(a)), Markets(Events(b));
    assert |all| == |Ids(all)| == |ma| + |mb|;
    forall i | 0 <= i < |all| ensures all[i] == (ma + mb)[i] {
      assert (ma + mb)[i].Identity() == (Ids(ma) + Ids(mb))[i] == Ids(all)[i];
      assert (ma + mb)[i] in ma || (ma + mb)[i] in mb;
      MarketsOfJoined(a, b, (ma + mb)[i]);
      UniqueMarket(Joined(a, b), all[i], (ma + mb)[i]);
    }
    assert all == ma + mb;
    SortedIsStable(Rows(Joined(a, b)));
    MarketsOrdered(Events(Joined(a, b)));
    forall i, j | 0 <= i < |a.markets| && 0 <= j < |b.markets|
      ensures Leq(MarketEvent(a.markets[i]), MarketEvent(b.markets[j]))
    {
      MarketOfEvents(a, MarketEvent(a.markets[i]));
      MarketOfEvents(b, MarketEvent(b.markets[j]));
      var p :| 0 <= p < |ma| && ma[p] == MarketEvent(a.markets[i]);
      var q :| 0 <= q < |mb| && mb[q] == MarketEvent(b.markets[j]);
      assert all[p] == ma[p] && all[|ma| + q] == mb[q];
    }
  }

  lemma CleanIds(l: Ledger)
    requires UniqueIds(l)
    ensures Clean(l).providerIds == Ids(Markets(Events(l)))
  {
    EventsDistinct(l);
    ReplayedIds(EMPTY, Events(l));
  }

  /** No later bar has the id of an earlier one. */
  lemma LaterIdsAreNew(a: Ledger, b: Ledger, x: Event, y: Event)
    requires UniqueIds(Joined(a, b)) && x in Markets(Events(a)) && y in Markets(Events(b))
    ensures x.Identity() != y.Identity()
  {
    MarketOfEvents(a, x);
    MarketOfEvents(b, y);
    var p :| 0 <= p < |a.markets| && x == MarketEvent(a.markets[p]);
    var q :| 0 <= q < |b.markets| && y == MarketEvent(b.markets[q]);
    var all := Joined(a, b).markets;
    assert all[p] == a.markets[p] && all[|a.markets| + q] == b.markets[q];
  }

  lemma PartsAreUnique(a: Ledger, b: Ledger)
    requires UniqueIds(Joined(a, b))
    ensures UniqueIds(a) && UniqueIds(b)
  {
    var all := Joined(a, b).markets;
    assert a.markets == all[..|a.markets|] && b.markets == all[|a.markets|..];
  }

  lemma ResumedIds(a: Ledger, b: Ledger)
    requires UniqueIds(Joined(a, b))
    ensures Resumed(a, b).providerIds == Ids(Markets(Events(a))) + Ids(Markets(Events(b)))
  {
    PartsAreUnique(a, b);
    CleanIds(a);
    EventsDistinct(b);
    MarketsMembers(Events(b));
    var es, ma := Events(b), Markets(Events(a));
    forall i | 0 <= i < |es| && es[i].MarketEvent? ensures es[i].Identity() !in Clean(a).providerIds {
      assert es[i] in es;
      forall k | 0 <= k < |ma| ensures ma[k].Identity() != es[i].Identity() {
        assert ma[k] in ma;
        LaterIdsAreNew(a, b, ma[k], es[i]);
      }
    }
    ReplayedIds(Clean(a), es);
  }

  lemma SameIdsIff(a: Ledger, b: Ledger)
    requires UniqueIds(Joined(a, b))
    ensures Resumed(a, b).providerIds == Clean(Joined(a, b)).providerIds <==> MarketsInOrder(a, b)
  {
    CleanIds(Joined(a, b));
    ResumedIds(a, b);
    if MarketsInOrder(a, b) {
      OrderedMarkets(a, b);
      var ma, mb := Markets(Events(a)), Markets(Events(b));
      assert Ids(ma + mb) == Ids(ma) + Ids(mb);
    } else if Resumed(a, b).providerIds == Clean(Joined(a, b)).providerIds {
      IdsTellOrder(a, b);
    }
  }

  // ----- Orders, positions, clock -----

  /** The later evidence of a class is not overtaken by an earlier event that says otherwise. */
  predicate OrdersAgree(x: Option<Event>, y: Option<Event>) {
    x.Some? && y.Some? && !Leq(x.value, y.value) ==> StatusOf(x, None) == StatusOf(y, None)
  }

  predicate PositionsAgree(x: Option<Event>, y: Option<Event>) {
    x.Some? && y.Some? && !Leq(x.value, y.value) ==> PositionsOf(x, map[]) == PositionsOf(y, map[])
  }

  predicate ClockAgrees(x: Option<Event>, y: Option<Event>) {
    x.Some? && y.Some? ==> x.value.At() <= y.value.At()
  }

  /** No late evidence that matters: bars come in order, the newest event is among the later ones,
      and no later order update or position snapshot is overtaken by an earlier, different one. */
  ghost predicate Timely(a: Ledger, b: Ledger) {
    && MarketsInOrder(a, b)
    && ClockAgrees(LastOf(Events(a), Anything()), LastOf(Events(b), Anything()))
    && PositionsAgree(LastOf(Events(a), IsPosition()), LastOf(Events(b), IsPosition()))
    && forall client :: OrdersAgree(LastOf(Events(a), IsOrderOf(client)), LastOf(Events(b), IsOrderOf(client)))
  }

  lemma LastIsOf(es: seq<Event>)
    ensures LastOf(es, Anything()) == if es == [] then None else Some(Last(es))
  {}

  lemma {:induction false} LastOfKind(es: seq<Event>, f: Event -> bool)
    ensures LastOf(es, f).Some? ==> f(LastOf(es, f).value)
  {
    if es != [] {
      LastOfKind(Front(es), f);
    }
  }

  lemma SameOrderIff(a: Ledger, b: Ledger, client: int)
    ensures Lookup(Resumed(a, b).orders, client) == Lookup(Clean(Joined(a, b)).orders, client) <==>
            OrdersAgree(LastOf(Events(a), IsOrderOf(client)), LastOf(Events(b), IsOrderOf(client)))
  {
    JoinedIsMerged(a, b);
    LastOfMerged(Events(a), Events(b), Events(Joined(a, b)), IsOrderOf(client));
    ReplayedRest(EMPTY, Events(a));
    ReplayedRest(Clean(a), Events(b));
    ReplayedRest(EMPTY, Events(Joined(a, b)));
    LastOfKind(Events(a), IsOrderOf(client));
    LastOfKind(Events(b), IsOrderOf(client));
  }

  lemma SamePositionsIff(a: Ledger, b: Ledger)
    ensures Resumed(a, b).positions == Clean(Joined(a, b)).positions <==>
            PositionsAgree(LastOf(Events(a), IsPosition()), LastOf(Events(b), IsPosition()))
  {
    JoinedIsMerged(a, b);
    LastOfMerged(Events(a), Events(b), Events(Joined(a, b)), IsPosition());
    ReplayedRest(EMPTY, Events(a));
    ReplayedRest(Clean(a), Events(b));
    ReplayedRest(EMPTY, Events(Joined(a, b)));
    LastOfKind(Events(a), IsPosition());
    LastOfKind(Events(b), IsPosition());
  }

  lemma SameClockIff(a: Ledger, b: Ledger)
    ensures Resumed(a, b).lastEventAt == Clean(Joined(a, b)).lastEventAt <==>
            ClockAgrees(LastOf(Events(a), Anything()), LastOf(Events(b), Anything()))
  {
    JoinedIsMerged(a, b);
    LastOfMerged(Events(a), Events(b), Events(Joined(a, b)), Anything());
    LastIsOf(Events(a));
    LastIsOf(Events(b));
    LastIsOf(Events(Joined(a, b)));
    ReplayedRest(EMPTY, Events(a));
    ReplayedRest(Clean(a), Events(b));
    ReplayedRest(EMPTY, Events(Joined(a, b)));
  }

  lemma SameMaps<K, V>(m: map<K, V>, n: map<K, V>)
    ensures m == n <==> forall k :: Lookup(m, k) == Lookup(n, k)
  {
    if forall k :: Lookup(m, k) == Lookup(n, k) {
      assert forall k :: k in m <==> Lookup(m, k).Some?;
      assert forall k :: k in n <==> Lookup(n, k).Some?;
      assert forall k :: k in m ==> m[k] == Lookup(m, k).value;
      assert m == n;
    }
  }

  /** Resuming from a checkpoint differs from a clean replay exactly when some later evidence came
      too late for it to matter in order. */
  lemma ResumingEqualsReplayingIff(a: Ledger, b: Ledger)
    requires UniqueIds(Joined(a, b))
    ensures Resumed(a, b) == Clean(Joined(a, b)) <==> Timely(a, b)
  {
    SameIdsIff(a, b);
    SameClockIff(a, b);
    SamePositionsIff(a, b);
    var resumed, clean := Resumed(a, b), Clean(Joined(a, b));
    if Timely(a, b) {
      forall client ensures Lookup(resumed.orders, client) == Lookup(clean.orders, client) {
        SameOrderIff(a, b, client);
      }
      SameMaps(resumed.orders, clean.orders);
      assert resumed == clean;
    }
    if resumed == clean {
      forall client ensures OrdersAgree(LastOf(Events(a), IsOrderOf(client)), LastOf(Events(b), IsOrderOf(client))) {
        SameOrderIff(a, b, client);
      }
    }
  }
}
