/** The live pipeline: it validates and stores minute bars, and emits the bar of a bucket on the call
    that supplies its last missing minute. */
module MarketData {
  import opened Wrappers
  import opened Orders
  import opened Bars

  // ----- What a list of stored events says -----

  function BarsOf(events: seq<ClosedBar>): map<Key, ClosedBar> {
    if events == [] then map[]
    else
      var last := events[|events| - 1];
      var before := BarsOf(events[..|events| - 1]);
      if last.timeframe.OneMinute? then before[(last.symbol, last.start) := last] else before
  }

  function Later(latest: map<Symbol, int>, bar: ClosedBar): map<Symbol, int> {
    if bar.symbol !in latest || bar.start > latest[bar.symbol] then latest[bar.symbol := bar.start] else latest
  }

  function LatestOf(events: seq<ClosedBar>): map<Symbol, int> {
    if events == [] then map[]
    else
      var last := events[|events| - 1];
      var before := LatestOf(events[..|events| - 1]);
      if last.timeframe.OneMinute? then Later(before, last) else before
  }

  function EmittedOf(events: seq<ClosedBar>): set<Key> {
    if events == [] then {}
    else
      var last := events[|events| - 1];
      var before := EmittedOf(events[..|events| - 1]);
      if last.timeframe.FifteenMinutes? then before + {(last.symbol, last.start)} else before
  }

  // ----- The store -----

  /** No stored event has the id of the new bar. */
  predicate IdIsFree(events: seq<ClosedBar>, bar: ClosedBar) {
    forall e :: e in events ==> e.id != bar.id
  }

  class EventStore {
    var events: seq<ClosedBar>

    constructor ()
      ensures events == []
    {
      events := [];
    }

    /** Insert, or verify that the stored event of the same id is the same. */
    method Append(bar: ClosedBar) returns (ok: bool)
      modifies this
      ensures IdIsFree(old(events), bar) ==> ok && events == old(events) + [bar]
      ensures !IdIsFree(old(events), bar) ==>
                events == old(events) && (ok <==> forall e :: e in old(events) && e.id == bar.id ==> e == bar)
    {
      ok := true;
      var found := false;
      for i := 0 to |events|
        invariant events == old(events)
        invariant ok <==> forall j :: 0 <= j < i && events[j].id == bar.id ==> events[j] == bar
        invariant found <==> exists j :: 0 <= j < i && events[j].id == bar.id
      {
        if events[i].id == bar.id {
          found := true;
          if events[i] != bar { ok := false; }
        }
      }
      if !found { events := events + [bar]; }
    }
  }

  // ----- The invariant -----

  predicate GoodBar(session: Session, bar: ClosedBar) {
    bar.Valid() && bar.timeframe.OneMinute? && session.Official(bar.start) && bar.id.Provided?
  }

  /** A stored minute bar is the bar of its minute; a stored aggregate is that of its full bucket. */
  ghost predicate GoodEvent(session: Session, bars: map<Key, ClosedBar>, e: ClosedBar) {
    var key := (e.symbol, e.start);
    if e.timeframe.OneMinute? then GoodBar(session, e) && key in bars && bars[key] == e
    else FullBucket(session, bars, key) && e == Aggregate(bars, e.symbol, e.start)
  }

  predicate UniqueEvents(events: seq<ClosedBar>) {
    && (forall i, j :: 0 <= i < j < |events| ==> events[i].id != events[j].id)
    && (forall i, j :: 0 <= i < j < |events| && events[i].timeframe == events[j].timeframe ==>
          (events[i].symbol, events[i].start) != (events[j].symbol, events[j].start))
  }

  /** Everything stored is right and occurs once. */
  ghost predicate AllGood(session: Session, events: seq<ClosedBar>) {
    (forall e :: e in events ==> GoodEvent(session, BarsOf(events), e)) && UniqueEvents(events)
  }

  /** The buckets emitted are exactly the full ones, and everything stored is good. */
  ghost predicate Recorded(session: Session, events: seq<ClosedBar>) {
    && (forall key :: key in EmittedOf(events) <==> FullBucket(session, BarsOf(events), key))
    && AllGood(session, events)
  }

  lemma Snoc(events: seq<ClosedBar>, e: ClosedBar)
    ensures BarsOf(events + [e]) ==
            if e.timeframe.OneMinute? then BarsOf(events)[(e.symbol, e.start) := e] else BarsOf(events)
    ensures LatestOf(events + [e]) == if e.timeframe.OneMinute? then Later(LatestOf(events), e) else LatestOf(events)
    ensures EmittedOf(events + [e]) ==
            if e.timeframe.FifteenMinutes? then EmittedOf(events) + {(e.symbol, e.start)} else EmittedOf(events)
  {
    assert (events + [e])[..|events|] == events;
  }

  lemma {:induction false} BarsAreStored(events: seq<ClosedBar>, key: Key)
    requires key in BarsOf(events)
    ensures BarsOf(events)[key] in events && BarsOf(events)[key].timeframe.OneMinute?
    ensures (BarsOf(events)[key].symbol, BarsOf(events)[key].start) == key
  {
    var front, last := events[..|events| - 1], events[|events| - 1];
    if !(last.timeframe.OneMinute? && (last.symbol, last.start) == key) {
      BarsAreStored(front, key);
      assert events == front + [last];
    }
  }

  lemma {:induction false} EmittedAreStored(events: seq<ClosedBar>, key: Key)
    ensures key in EmittedOf(events) <==>
            exists i :: 0 <= i < |events| && events[i].timeframe.FifteenMinutes? &&
                        (events[i].symbol, events[i].start) == key
  {
    if events != [] {
      EmittedAreStored(events[..|events| - 1], key);
    }
  }

  /** A full bucket keeps its aggregate when another minute arrives. */
  lemma AggregateStays(session: Session, bars: map<Key, ClosedBar>, bar: ClosedBar, s: Symbol, start: int)
    requires (bar.symbol, bar.start) !in bars && Complete(bars, s, start)
    ensures Complete(bars[(bar.symbol, bar.start) := bar], s, start)
    ensures Aggregate(bars[(bar.symbol, bar.start) := bar], s, start) == Aggregate(bars, s, start)
  {
    var after := bars[(bar.symbol, bar.start) := bar];
    assert Components(after, s, start) == Components(bars, s, start);
  }

  /** What is stored stays right when another minute arrives. */
  lemma EventStaysGood(session: Session, bars: map<Key, ClosedBar>, bar: ClosedBar, e: ClosedBar)
    requires GoodEvent(session, bars, e) && (bar.symbol, bar.start) !in bars
    ensures GoodEvent(session, bars[(bar.symbol, bar.start) := bar], e)
    ensures e.timeframe.OneMinute? ==> (e.symbol, e.start) != (bar.symbol, bar.start)
  {
    if e.timeframe.FifteenMinutes? {
      AggregateStays(session, bars, bar, e.symbol, e.start);
    }
  }

  /** A new event joins the others. */
  lemma UniqueMore(events: seq<ClosedBar>, e: ClosedBar)
    requires UniqueEvents(events) && IdIsFree(events, e)
    requires forall x :: x in events && x.timeframe == e.timeframe ==> (x.symbol, x.start) != (e.symbol, e.start)
    ensures UniqueEvents(events + [e])
  {
    assert forall i :: 0 <= i < |events| ==> events[i] in events;
  }

  lemma MinuteIsGood(session: Session, events: seq<ClosedBar>, bar: ClosedBar)
    requires Recorded(session, events) && GoodBar(session, bar) && IdIsFree(events, bar)
    requires (bar.symbol, bar.start) !in BarsOf(events)
    ensures BarsOf(events + [bar]) == BarsOf(events)[(bar.symbol, bar.start) := bar] && AllGood(session, events + [bar])
  {
    Snoc(events, bar);
    forall e | e in events
      ensures GoodEvent(session, BarsOf(events + [bar]), e) &&
              (e.timeframe.OneMinute? ==> (e.symbol, e.start) != (bar.symbol, bar.start))
    {
      EventStaysGood(session, BarsOf(events), bar, e);
    }
    assert GoodEvent(session, BarsOf(events + [bar]), bar);
    UniqueMore(events, bar);
  }

  /** The minute completes nothing: the emitted buckets are still the full ones. */
  lemma MinuteRecorded(session: Session, events: seq<ClosedBar>, bar: ClosedBar)
    requires Recorded(session, events) && GoodBar(session, bar) && IdIsFree(events, bar)
    requires (bar.symbol, bar.start) !in BarsOf(events)
    requires !Complete(BarsOf(events + [bar]), bar.symbol, session.BucketStart(bar.start))
    ensures Recorded(session, events + [bar])
  {
    Snoc(events, bar);
    MinuteIsGood(session, events, bar);
    forall key ensures FullBucket(session, BarsOf(events + [bar]), key) <==> FullBucket(session, BarsOf(events), key) {
      NewBarFills(session, BarsOf(events), bar, key);
    }
  }

  /** An aggregate that is not stored has an id that is not stored. */
  lemma AggregateIdIsFree(session: Session, events: seq<ClosedBar>, s: Symbol, start: int)
    requires AllGood(session, events)
    requires Complete(BarsOf(events), s, start) && (s, start) !in EmittedOf(events)
    ensures IdIsFree(events, Aggregate(BarsOf(events), s, start))
  {
    var bars := BarsOf(events);
    forall e | e in events ensures e.id != Aggregate(bars, s, start).id {
      if e.id == Aggregate(bars, s, start).id {
        assert GoodEvent(session, bars, e);
        var mine, theirs := Components(bars, s, start), Components(bars, e.symbol, e.start);
        assert Ids(mine)[0] == Ids(theirs)[0];
        BarsAreStored(events, (s, start));
        BarsAreStored(events, (e.symbol, e.start));
        EmittedAreStored(events, (s, start));
      }
    }
  }

  /** The minute completes its bucket and the aggregate follows. */
  lemma AggregateRecorded(session: Session, events: seq<ClosedBar>, bar: ClosedBar)
    requires Recorded(session, events) && GoodBar(session, bar) && IdIsFree(events, bar)
    requires (bar.symbol, bar.start) !in BarsOf(events)
    requires Complete(BarsOf(events + [bar]), bar.symbol, session.BucketStart(bar.start))
    ensures var a := Aggregate(BarsOf(events + [bar]), bar.symbol, session.BucketStart(bar.start));
            && IdIsFree(events + [bar], a)
            && Recorded(session, events + [bar] + [a])
  {
    var start := session.BucketStart(bar.start);
    var more := events + [bar];
    var a := Aggregate(BarsOf(more), bar.symbol, start);
    MinuteIsGood(session, events, bar);
    BucketIsNew(session, events, bar, (bar.symbol, start));
    AggregateFollows(session, more, bar.symbol, start);
    FullAfter(session, events, bar, (bar.symbol, start));
    AggregateEmits(session, more, a);
  }

  lemma AggregateFollows(session: Session, events: seq<ClosedBar>, s: Symbol, start: int)
    requires AllGood(session, events) && FullBucket(session, BarsOf(events), (s, start)) &&
             (s, start) !in EmittedOf(events)
    ensures var a := Aggregate(BarsOf(events), s, start); IdIsFree(events, a) && AllGood(session, events + [a])
  {
    AggregateIdIsFree(session, events, s, start);
    AggregateIsGood(session, events, s, start, Aggregate(BarsOf(events), s, start));
  }

  lemma BucketIsNew(session: Session, events: seq<ClosedBar>, bar: ClosedBar, key: Key)
    requires bar.timeframe.OneMinute? && session.Official(bar.start) && (bar.symbol, bar.start) !in BarsOf(events)
    requires key == (bar.symbol, session.BucketStart(bar.start))
    requires forall k :: k in EmittedOf(events) <==> FullBucket(session, BarsOf(events), k)
    ensures key !in EmittedOf(events + [bar]) && (key.1 - session.opens) % BUCKET == 0
  {
    Snoc(events, bar);
    BucketWasOpen(session, BarsOf(events), bar);
    BucketFacts(session, bar.start, key.1);
  }

  lemma AggregateEmits(session: Session, events: seq<ClosedBar>, a: ClosedBar)
    requires a.timeframe.FifteenMinutes?
    requires forall k :: k in EmittedOf(events) || k == (a.symbol, a.start) <==> FullBucket(session, BarsOf(events), k)
    ensures forall k :: k in EmittedOf(events + [a]) <==> FullBucket(session, BarsOf(events + [a]), k)
  {
    Snoc(events, a);
  }

  lemma FullAfter(session: Session, events: seq<ClosedBar>, bar: ClosedBar, key: Key)
    requires bar.timeframe.OneMinute? && session.Official(bar.start) && (bar.symbol, bar.start) !in BarsOf(events)
    requires key == (bar.symbol, session.BucketStart(bar.start)) && Complete(BarsOf(events + [bar]), key.0, key.1)
    requires forall k :: k in EmittedOf(events) <==> FullBucket(session, BarsOf(events), k)
    ensures forall k :: k in EmittedOf(events + [bar]) || k == key <==> FullBucket(session, BarsOf(events + [bar]), k)
  {
    Snoc(events, bar);
    BucketFacts(session, bar.start, key.1);
    forall k ensures k in EmittedOf(events) || k == key <==> FullBucket(session, BarsOf(events + [bar]), k) {
      NewBarFills(session, BarsOf(events), bar, k);
    }
  }

  lemma AggregateIsGood(session: Session, events: seq<ClosedBar>, s: Symbol, start: int, a: ClosedBar)
    requires AllGood(session, events)
    requires FullBucket(session, BarsOf(events), (s, start)) && (s, start) !in EmittedOf(events)
    requires a == Aggregate(BarsOf(events), s, start) && IdIsFree(events, a)
    ensures AllGood(session, events + [a])
  {
    Snoc(events, a);
    forall x | x in events && x.timeframe.FifteenMinutes? ensures (x.symbol, x.start) != (a.symbol, a.start) {
      var i :| 0 <= i < |events| && events[i] == x;
      EmittedAreStored(events, (x.symbol, x.start));
    }
    UniqueMore(events, a);
  }

  // ----- The pipeline -----

  datatype CircuitReason = OutsideOfficialSession | DuplicateBarContentMismatch | BarOutsideReorderWindow

  datatype IngestError = Refused(reason: CircuitReason) | ProviderEventContentMismatch

  datatype Judgement = Accept | Known | Refuse(reason: CircuitReason)

  /** What becomes of a bar, given the bars and latest times so far. */
  function Judge(session: Session, window: int, bars: map<Key, ClosedBar>, latest: map<Symbol, int>,
                 bar: ClosedBar): Judgement {
    var key := (bar.symbol, bar.start);
    if !session.Official(bar.start) then Refuse(OutsideOfficialSession)
    else if key in bars then if bars[key] != bar then Refuse(DuplicateBarContentMismatch) else Known
    else if bar.symbol in latest && bar.start < latest[bar.symbol] - window then Refuse(BarOutsideReorderWindow)
    else Accept
  }

  /** The latest start of a symbol is the greatest among its stored minutes. */
  lemma {:induction false} LatestIsGreatest(events: seq<ClosedBar>, s: Symbol)
    ensures s in LatestOf(events) <==> exists i :: 0 <= i < |events| && IsMinuteOf(events[i], s)
    ensures s in LatestOf(events) ==>
              && (forall i :: 0 <= i < |events| && IsMinuteOf(events[i], s) ==> events[i].start <= LatestOf(events)[s])
              && (exists i :: 0 <= i < |events| && IsMinuteOf(events[i], s) && events[i].start == LatestOf(events)[s])
  {
    if events != [] {
      var front := events[..|events| - 1];
      LatestIsGreatest(front, s);
      assert forall i :: 0 <= i < |front| ==> front[i] == events[i];
    }
  }

  predicate IsMinuteOf(e: ClosedBar, s: Symbol) { e.timeframe.OneMinute? && e.symbol == s }

  /** Some stored minute of the symbol starts more than `window` after the bar. */
  predicate TooLate(events: seq<ClosedBar>, window: int, bar: ClosedBar) {
    exists i :: 0 <= i < |events| && IsMinuteOf(events[i], bar.symbol) && events[i].start > bar.start + window
  }

  /** Some stored bar is of the same symbol and minute. */
  predicate MinuteTaken(events: seq<ClosedBar>, bar: ClosedBar) {
    exists i :: 0 <= i < |events| && IsMinuteOf(events[i], bar.symbol) && events[i].start == bar.start
  }

  /** What becomes of a bar, told by what is stored: outside the hours, a minute taken by the same or by
      another bar, too late, or accepted. */
  lemma JudgedByStore(session: Session, window: int, events: seq<ClosedBar>, bar: ClosedBar)
    requires Recorded(session, events) && bar.timeframe.OneMinute?
    ensures Judge(session, window, BarsOf(events), LatestOf(events), bar) ==
            if !(session.opens <= bar.start < session.opens + session.length) then Refuse(OutsideOfficialSession)
            else if MinuteTaken(events, bar) then if bar in events then Known else Refuse(DuplicateBarContentMismatch)
            else if TooLate(events, window, bar) then Refuse(BarOutsideReorderWindow)
            else Accept
  {
    LatestIsGreatest(events, bar.symbol);
    var key := (bar.symbol, bar.start);
    if key in BarsOf(events) {
      BarsAreStored(events, key);
      var i :| 0 <= i < |events| && events[i] == BarsOf(events)[key];
      assert MinuteTaken(events, bar);
    }
    if i :| 0 <= i < |events| && IsMinuteOf(events[i], bar.symbol) && events[i].start == bar.start {
      assert events[i] in events && GoodEvent(session, BarsOf(events), events[i]);
    }
    if bar in events {
      assert GoodEvent(session, BarsOf(events), bar);
    }
  }

  /** The bar that accepting `bar` emits, if any. */
  function Emission(session: Session, bars: map<Key, ClosedBar>, bar: ClosedBar): seq<ClosedBar>
    requires session.Official(bar.start)
  {
    var start := session.BucketStart(bar.start);
    if Complete(bars, bar.symbol, start) then [Aggregate(bars, bar.symbol, start)] else []
  }

  /** The store after ingesting one bar; none when the id of the bar is in use, which raises. */
  function Ingested(session: Session, window: int, events: seq<ClosedBar>, bar: ClosedBar): Option<seq<ClosedBar>> {
    match Judge(session, window, BarsOf(events), LatestOf(events), bar)
    case Accept =>
      var more := events + [bar];
      if IdIsFree(events, bar) then Some(more + Emission(session, BarsOf(more), bar)) else None
    case _ => Some(events)
  }

  class MarketDataPipeline {
    const session: Session
    const reorderWindow: int
    const store: EventStore
    var bars: map<Key, ClosedBar>
    var latest: map<Symbol, int>
    var emitted: set<Key>
    var circuit: set<CircuitReason>

    /** The state is what a rebuild from the store would give, and the store is in order. */
    ghost predicate Valid()
      reads this, store
    {
      && bars == BarsOf(store.events) && latest == LatestOf(store.events) && emitted == EmittedOf(store.events)
      && Recorded(session, store.events)
    }

    /** Rebuild from whatever the store holds. */
    constructor (store: EventStore, session: Session, reorderWindow: int)
      requires reorderWindow > 0
      ensures this.store == store && this.session == session && this.reorderWindow == reorderWindow
      ensures bars == BarsOf(store.events) && latest == LatestOf(store.events) && emitted == EmittedOf(store.events)
      ensures circuit == {}
      ensures Recorded(session, store.events) ==> Valid()
    {
      this.store := store;
      this.session := session;
      this.reorderWindow := reorderWindow;
      circuit := {};
      bars := map[];
      latest := map[];
      emitted := {};
      new;
      for i := 0 to |store.events|
        invariant this.store == store && this.session == session && this.reorderWindow == reorderWindow && circuit == {}
        invariant bars == BarsOf(store.events[..i]) && latest == LatestOf(store.events[..i]) &&
                  emitted == EmittedOf(store.events[..i])
      {
        var event := store.events[i];
        assert store.events[..i + 1] == store.events[..i] + [event];
        Snoc(store.events[..i], event);
        if event.timeframe.OneMinute? {
          bars := bars[(event.symbol, event.start) := event];
          if event.symbol !in latest || event.start > latest[event.symbol] {
            latest := latest[event.symbol := event.start];
          }
        } else {
          emitted := emitted + {(event.symbol, event.start)};
        }
      }
      assert store.events[..|store.events|] == store.events;
    }

    /** The aggregate of the bucket of `t`, unless it was emitted before or a minute is missing. */
    method AggregateIfComplete(s: Symbol, t: int) returns (aggregate: Option<ClosedBar>)
      requires session.Official(t)
      modifies this`emitted
      ensures var start := session.BucketStart(t);
              if (s, start) in old(emitted) || !Complete(bars, s, start) then
                aggregate == None && emitted == old(emitted)
              else aggregate == Some(Aggregate(bars, s, start)) && emitted == old(emitted) + {(s, start)}
    {
      var start := session.BucketStart(t);
      if (s, start) in emitted { return None; }
      for k := 0 to BUCKET
        invariant forall u :: start <= u < start + k ==> (s, u) in bars
      {
        if (s, start + k) !in bars { return None; }
      }
      emitted := emitted + {(s, start)};
      return Some(Aggregate(bars, s, start));
    }

    /** Ingest one minute bar.  With ids that are not in use, an accepted bar is stored, and its bucket
        is emitted on this call exactly when no other minute of it is missing.  A bar whose id is in use
        is refused by the store but stays in memory: sent again, it would pass for a known one. */
    method Ingest(bar: ClosedBar) returns (r: Result<seq<ClosedBar>, IngestError>)
      requires Valid() && bar.timeframe.OneMinute? && bar.Valid() && bar.id.Provided?
      modifies this, store
      ensures match Judge(session, reorderWindow, old(bars), old(latest), bar)
              case Refuse(reason) =>
                && r == Failure(Refused(reason)) && circuit == old(circuit) + {reason}
                && bars == old(bars) && latest == old(latest) && emitted == old(emitted)
                && store.events == old(store.events)
              case Known =>
                && r == Success([]) && circuit == old(circuit)
                && bars == old(bars) && latest == old(latest) && emitted == old(emitted)
                && store.events == old(store.events)
              case Accept =>
                if IdIsFree(old(store.events), bar) then
                  && bars == old(bars)[(bar.symbol, bar.start) := bar]
                  && r == Success(Emission(session, bars, bar)) && circuit == old(circuit)
                  && store.events == old(store.events) + [bar] + r.value
                else
                  && r == Failure(ProviderEventContentMismatch) && circuit == old(circuit)
                  && bars == old(bars)[(bar.symbol, bar.start) := bar] && latest == Later(old(latest), bar)
                  && emitted == old(emitted) && store.events == old(store.events)
      ensures match Ingested(session, reorderWindow, old(store.events), bar)
              case Some(events) => store.events == events && Valid()
              case None =>
                && r == Failure(ProviderEventContentMismatch) && (bar.symbol, bar.start) !in BarsOf(store.events)
                && Judge(session, reorderWindow, bars, latest, bar) == Known
    {
      if !session.Official(bar.start) {
        circuit := circuit + {OutsideOfficialSession};
        return Failure(Refused(OutsideOfficialSession));
      }
      var key := (bar.symbol, bar.start);
      if key in bars {
        if bars[key] != bar {
          circuit := circuit + {DuplicateBarContentMismatch};
          return Failure(Refused(DuplicateBarContentMismatch));
        }
        return Success([]);
      }
      if bar.symbol in latest && bar.start < latest[bar.symbol] - reorderWindow {
        circuit := circuit + {BarOutsideReorderWindow};
        return Failure(Refused(BarOutsideReorderWindow));
      }
      r := Take(bar);
    }

    /** Keep, store and aggregate an accepted bar. */
    method Take(bar: ClosedBar) returns (r: Result<seq<ClosedBar>, IngestError>)
      requires Valid() && GoodBar(session, bar) && (bar.symbol, bar.start) !in bars
      modifies this`bars, this`latest, this`emitted, store
      ensures if IdIsFree(old(store.events), bar) then
                && bars == old(bars)[(bar.symbol, bar.start) := bar]
                && r == Success(Emission(session, bars, bar))
                && store.events == old(store.events) + [bar] + r.value
                && Valid()
              else
                && r == Failure(ProviderEventContentMismatch)
                && bars == old(bars)[(bar.symbol, bar.start) := bar] && latest == Later(old(latest), bar)
                && emitted == old(emitted) && store.events == old(store.events)
    {
      ghost var events := store.events;
      NotStored(session, events, bar);
      bars := bars[(bar.symbol, bar.start) := bar];
      latest := Later(latest, bar);
      var ok := store.Append(bar);
      if !ok { return Failure(ProviderEventContentMismatch); }
      Taken(session, events, bar);
      TakenRecorded(session, events, bar);
      var aggregate := AggregateIfComplete(bar.symbol, bar.start);
      if aggregate.None? {
        assert events + [bar] == events + [bar] + [];
        return Success([]);
      }
      ok := store.Append(aggregate.value);
      assert ok;
      return Success([aggregate.value]);
    }
  }

  /** What an accepted bar and its emission change in what the events say. */
  lemma Taken(session: Session, events: seq<ClosedBar>, bar: ClosedBar)
    requires bar.timeframe.OneMinute? && session.Official(bar.start)
    ensures var more := events + [bar];
            var out := Emission(session, BarsOf(more), bar);
            && BarsOf(more) == BarsOf(events)[(bar.symbol, bar.start) := bar]
            && BarsOf(more + out) == BarsOf(more)
            && LatestOf(more + out) == Later(LatestOf(events), bar)
            && EmittedOf(more + out) ==
               (if out == [] then EmittedOf(events)
                else EmittedOf(events) + {(bar.symbol, session.BucketStart(bar.start))})
  {
    var more := events + [bar];
    Snoc(events, bar);
    if Complete(BarsOf(more), bar.symbol, session.BucketStart(bar.start)) {
      Snoc(more, Aggregate(BarsOf(more), bar.symbol, session.BucketStart(bar.start)));
    } else {
      assert more + [] == more;
    }
  }

  /** The store stays in order, and an aggregate finds its id free. */
  lemma TakenRecorded(session: Session, events: seq<ClosedBar>, bar: ClosedBar)
    requires Recorded(session, events) && GoodBar(session, bar) && IdIsFree(events, bar)
    requires (bar.symbol, bar.start) !in BarsOf(events)
    ensures var more := events + [bar];
            var out := Emission(session, BarsOf(more), bar);
            Recorded(session, more + out) && (out != [] ==> IdIsFree(more, out[0]))
    ensures (bar.symbol, session.BucketStart(bar.start)) !in EmittedOf(events)
  {
    var more := events + [bar];
    BucketWasOpen(session, BarsOf(events), bar);
    if Complete(BarsOf(more), bar.symbol, session.BucketStart(bar.start)) {
      AggregateRecorded(session, events, bar);
    } else {
      MinuteRecorded(session, events, bar);
      assert more + [] == more;
    }
  }

  /** A minute that is not among the bars is not among the events. */
  lemma NotStored(session: Session, events: seq<ClosedBar>, bar: ClosedBar)
    requires Recorded(session, events) && bar.timeframe.OneMinute? && (bar.symbol, bar.start) !in BarsOf(events)
    ensures bar !in events
  {
    forall e | e in events ensures e != bar {
      assert GoodEvent(session, BarsOf(events), e);
    }
  }

  // ----- Whole feeds -----

  /** What a pipeline may be sent: minute bars under provider ids. */
  predicate Sendable(bar: ClosedBar) { bar.Valid() && bar.timeframe.OneMinute? && bar.id.Provided? }

  /** An empty store is in order. */
  lemma EmptyIsRecorded(session: Session)
    ensures Recorded(session, [])
  {}

  lemma IngestedRecorded(session: Session, window: int, events: seq<ClosedBar>, bar: ClosedBar)
    requires Recorded(session, events) && Sendable(bar)
    ensures var after := Ingested(session, window, events, bar); after.Some? ==> Recorded(session, after.value)
  {
    if Judge(session, window, BarsOf(events), LatestOf(events), bar).Accept? && IdIsFree(events, bar) {
      TakenRecorded(session, events, bar);
    }
  }

  /** The store of a pipeline that was started on an empty one and sent these bars in this order. */
  function Fed(session: Session, window: int, feed: seq<ClosedBar>): Option<seq<ClosedBar>> {
    if feed == [] then Some([])
    else
      var before := Fed(session, window, feed[..|feed| - 1]);
      if before.None? then None else Ingested(session, window, before.value, feed[|feed| - 1])
  }

  /** Every store that a feed fills stays in order: what was emitted are exactly the full buckets, each
      once, and everything stored is right. */
  lemma {:induction false} EveryFeedIsRecorded(session: Session, window: int, feed: seq<ClosedBar>)
    requires forall i :: 0 <= i < |feed| ==> Sendable(feed[i])
    ensures var events := Fed(session, window, feed); events.Some? ==> Recorded(session, events.value)
  {
    if feed == [] {
      EmptyIsRecorded(session);
    } else {
      EveryFeedIsRecorded(session, window, feed[..|feed| - 1]);
      var before := Fed(session, window, feed[..|feed| - 1]);
      if before.Some? {
        IngestedRecorded(session, window, before.value, feed[|feed| - 1]);
      }
    }
  }

  /** Two feeds of which the same bars were accepted, in whatever order and with whatever repeats and
      refusals, have emitted the same bars. */
  lemma SameAcceptedSameEmissions(session: Session, window: int, one: seq<ClosedBar>, other: seq<ClosedBar>,
                                  a: ClosedBar)
    requires forall i :: 0 <= i < |one| ==> Sendable(one[i])
    requires forall i :: 0 <= i < |other| ==> Sendable(other[i])
    requires Fed(session, window, one).Some? && Fed(session, window, other).Some?
    requires BarsOf(Fed(session, window, one).value) == BarsOf(Fed(session, window, other).value)
    requires a.timeframe.FifteenMinutes?
    ensures a in Fed(session, window, one).value <==> a in Fed(session, window, other).value
  {
    var first, second := Fed(session, window, one).value, Fed(session, window, other).value;
    EveryFeedIsRecorded(session, window, one);
    EveryFeedIsRecorded(session, window, other);
    if a in first {
      SameBarsSameEmissions(session, first, second, a);
    }
    if a in second {
      SameBarsSameEmissions(session, second, first, a);
    }
  }

  /** What is emitted depends only on the accepted bars, not on the order or the repeats. */
  lemma SameBarsSameEmissions(session: Session, one: seq<ClosedBar>, other: seq<ClosedBar>, a: ClosedBar)
    requires Recorded(session, one) && Recorded(session, other) && BarsOf(one) == BarsOf(other)
    requires a in one && a.timeframe.FifteenMinutes?
    ensures a in other
  {
    assert GoodEvent(session, BarsOf(one), a);
    var key := (a.symbol, a.start);
    assert key in EmittedOf(other);
    EmittedAreStored(other, key);
    var i :| 0 <= i < |other| && other[i].timeframe.FifteenMinutes? && (other[i].symbol, other[i].start) == key;
    assert other[i] in other && GoodEvent(session, BarsOf(other), other[i]);
  }
}
