/** Batch resampling of a session's minute bars, and its agreement with what the live pipeline emits. */
module Resample {
  import opened Wrappers
  import opened Orders
  import opened Bars
  import opened MarketData

  datatype ResampledBar = ResampledBar(symbol: Symbol, start: int, availableAt: int, values: Ohlcv)

  /** The rows of one symbol and one interval, in row order. */
  function RowsOf(rows: seq<ClosedBar>, s: Symbol, start: int): seq<ClosedBar> {
    if rows == [] then []
    else
      var last := rows[|rows| - 1];
      RowsOf(rows[..|rows| - 1], s, start) +
      (if last.symbol == s && start <= last.start < start + BUCKET then [last] else [])
  }

  lemma {:induction false} RowsOfMembers(rows: seq<ClosedBar>, s: Symbol, start: int, x: ClosedBar)
    ensures x in RowsOf(rows, s, start) <==> x in rows && x.symbol == s && start <= x.start < start + BUCKET
  {
    if rows != [] {
      RowsOfMembers(rows[..|rows| - 1], s, start, x);
      assert rows == rows[..|rows| - 1] + [rows[|rows| - 1]];
    }
  }

  predicate ByStart(rows: seq<ClosedBar>) {
    forall i, j :: 0 <= i < j < |rows| ==> rows[i].start <= rows[j].start
  }

  function InsertByStart(rows: seq<ClosedBar>, bar: ClosedBar): seq<ClosedBar> {
    if rows == [] || rows[|rows| - 1].start <= bar.start then rows + [bar]
    else InsertByStart(rows[..|rows| - 1], bar) + [rows[|rows| - 1]]
  }

  function SortByStart(rows: seq<ClosedBar>): seq<ClosedBar> {
    if rows == [] then [] else InsertByStart(SortByStart(rows[..|rows| - 1]), rows[|rows| - 1])
  }

  lemma {:induction false} InsertMembers(rows: seq<ClosedBar>, bar: ClosedBar, x: ClosedBar)
    ensures x in InsertByStart(rows, bar) <==> x in rows || x == bar
  {
    if rows != [] && !(rows[|rows| - 1].start <= bar.start) {
      InsertMembers(rows[..|rows| - 1], bar, x);
      assert rows == rows[..|rows| - 1] + [rows[|rows| - 1]];
    }
  }

  lemma {:induction false} SortMembers(rows: seq<ClosedBar>, x: ClosedBar)
    ensures x in SortByStart(rows) <==> x in rows
  {
    if rows != [] {
      SortMembers(rows[..|rows| - 1], x);
      InsertMembers(SortByStart(rows[..|rows| - 1]), rows[|rows| - 1], x);
      assert rows == rows[..|rows| - 1] + [rows[|rows| - 1]];
    }
  }

  lemma {:induction false} InsertKeepsOrder(rows: seq<ClosedBar>, bar: ClosedBar)
    requires ByStart(rows)
    ensures ByStart(InsertByStart(rows, bar))
  {
    if rows == [] {
    } else if rows[|rows| - 1].start <= bar.start {
      assert forall i :: 0 <= i < |rows| ==> rows[i].start <= rows[|rows| - 1].start;
    } else {
      var front, last := rows[..|rows| - 1], rows[|rows| - 1];
      InsertKeepsOrder(front, bar);
      var r := InsertByStart(front, bar);
      forall i | 0 <= i < |r| ensures r[i].start <= last.start {
        InsertMembers(front, bar, r[i]);
        assert r[i] in r;
      }
    }
  }

  lemma {:induction false} SortOrders(rows: seq<ClosedBar>)
    ensures ByStart(SortByStart(rows))
  {
    if rows != [] {
      SortOrders(rows[..|rows| - 1]);
      InsertKeepsOrder(SortByStart(rows[..|rows| - 1]), rows[|rows| - 1]);
    }
  }

  /** Fifteen rows, one for each official minute of the interval. */
  predicate CompleteInterval(session: Session, interval: seq<ClosedBar>, start: int) {
    |interval| == BUCKET &&
    forall k :: 0 <= k < BUCKET ==> interval[k].start == start + k && session.Official(start + k)
  }

  function Interval(rows: seq<ClosedBar>, s: Symbol, start: int): seq<ClosedBar> {
    SortByStart(RowsOf(rows, s, start))
  }

  lemma IntervalMembers(rows: seq<ClosedBar>, s: Symbol, start: int, x: ClosedBar)
    ensures x in Interval(rows, s, start) <==> x in rows && x.symbol == s && start <= x.start < start + BUCKET
  {
    SortMembers(RowsOf(rows, s, start), x);
    RowsOfMembers(rows, s, start, x);
  }

  function ResampledRow(s: Symbol, start: int, interval: seq<ClosedBar>): ResampledBar
    requires interval != []
  {
    ResampledBar(s, start, start + BUCKET, OhlcvOf(interval))
  }

  /** First minute of interval `n`. */
  function StartOf(session: Session, n: nat): int { session.opens + n * BUCKET }

  /** Intervals that official minutes can fall into. */
  function Intervals(session: Session): nat { (session.length + BUCKET - 1) / BUCKET }

  /** The row of interval `n`, when it is complete. */
  function RowFor(session: Session, rows: seq<ClosedBar>, s: Symbol, n: nat): seq<ResampledBar> {
    var interval := Interval(rows, s, StartOf(session, n));
    if CompleteInterval(session, interval, StartOf(session, n)) then [ResampledRow(s, StartOf(session, n), interval)]
    else []
  }

  /** What `f` gives for the numbers below `n`, one after the other. */
  function Collected<T>(f: nat -> seq<T>, n: nat): seq<T> {
    if n == 0 then [] else Collected(f, n - 1) + f(n - 1)
  }

  lemma {:induction false} CollectedMembers<T>(f: nat -> seq<T>, n: nat, x: T)
    ensures x in Collected(f, n) <==> exists k: nat :: k < n && x in f(k)
  {
    if n > 0 {
      CollectedMembers(f, n - 1, x);
    }
  }

  function RowOf(session: Session, rows: seq<ClosedBar>, s: Symbol): nat -> seq<ResampledBar> {
    (n: nat) => RowFor(session, rows, s, n)
  }

  /** The rows of the first `n` intervals of a symbol. */
  function RowsFor(session: Session, rows: seq<ClosedBar>, s: Symbol, n: nat): seq<ResampledBar> {
    Collected(RowOf(session, rows, s), n)
  }

  /** All rows, by symbol and then by time. */
  function Resampled(session: Session, rows: seq<ClosedBar>): seq<ResampledBar> {
    RowsFor(session, rows, IWM, Intervals(session)) +
    RowsFor(session, rows, QQQ, Intervals(session)) +
    RowsFor(session, rows, SPY, Intervals(session))
  }

  /** Resample a session's minute bars; a bar outside the session is refused. */
  method ResampleMinuteBars(session: Session, rows: seq<ClosedBar>) returns (output: Option<seq<ResampledBar>>)
    ensures output ==
            if forall x :: x in rows ==> session.Official(x.start) then Some(Resampled(session, rows)) else None
  {
    for i := 0 to |rows|
      invariant forall j :: 0 <= j < i ==> session.Official(rows[j].start)
    {
      if !session.Official(rows[i].start) { return None; }
    }
    var one := ResampleSymbol(session, rows, IWM);
    var two := ResampleSymbol(session, rows, QQQ);
    var three := ResampleSymbol(session, rows, SPY);
    return Some(one + two + three);
  }

  method ResampleSymbol(session: Session, rows: seq<ClosedBar>, s: Symbol) returns (output: seq<ResampledBar>)
    ensures output == RowsFor(session, rows, s, Intervals(session))
  {
    output := [];
    ghost var row := RowOf(session, rows, s);
    for n := 0 to Intervals(session)
      invariant output == Collected(row, n)
    {
      var found := ResampleInterval(session, rows, s, n);
      assert found == row(n);
      output := output + found;
    }
  }

  /** The row of a complete interval, and none otherwise. */
  method ResampleInterval(session: Session, rows: seq<ClosedBar>, s: Symbol, n: nat) returns (found: seq<ResampledBar>)
    ensures found == RowFor(session, rows, s, n)
  {
    var interval := Interval(rows, s, StartOf(session, n));
    if !CompleteInterval(session, interval, StartOf(session, n)) { return []; }
    return [ResampledRow(s, StartOf(session, n), interval)];
  }

  predicate IsRow(session: Session, rows: seq<ClosedBar>, s: Symbol, n: nat, r: ResampledBar) {
    r in RowFor(session, rows, s, n)
  }

  lemma RowsForHas(session: Session, rows: seq<ClosedBar>, s: Symbol, n: nat, k: nat, r: ResampledBar)
    requires k < n && IsRow(session, rows, s, k, r)
    ensures r in RowsFor(session, rows, s, n)
  {
    CollectedMembers(RowOf(session, rows, s), n, r);
    assert r in RowOf(session, rows, s)(k);
  }

  lemma RowsForOnly(session: Session, rows: seq<ClosedBar>, s: Symbol, n: nat, r: ResampledBar) returns (k: nat)
    requires r in RowsFor(session, rows, s, n)
    ensures k < n && IsRow(session, rows, s, k, r)
  {
    CollectedMembers(RowOf(session, rows, s), n, r);
    k :| k < n && r in RowOf(session, rows, s)(k);
  }

  // ----- Stream equals batch -----

  /** The minute bars the live pipeline stored, in store order. */
  function Minutes(events: seq<ClosedBar>): seq<ClosedBar> {
    if events == [] then []
    else
      var last := events[|events| - 1];
      Minutes(events[..|events| - 1]) + (if last.timeframe.OneMinute? then [last] else [])
  }

  lemma {:induction false} MinutesMembers(events: seq<ClosedBar>, x: ClosedBar)
    ensures x in Minutes(events) <==> x in events && x.timeframe.OneMinute?
  {
    if events != [] {
      MinutesMembers(events[..|events| - 1], x);
      assert events == events[..|events| - 1] + [events[|events| - 1]];
    }
  }

  predicate DistinctStarts(rows: seq<ClosedBar>) {
    forall i, j :: 0 <= i < j < |rows| ==> rows[i].start != rows[j].start
  }

  predicate DistinctKeys(rows: seq<ClosedBar>) {
    forall i, j :: 0 <= i < j < |rows| ==> (rows[i].symbol, rows[i].start) != (rows[j].symbol, rows[j].start)
  }

  lemma {:induction false} MinutesDistinct(events: seq<ClosedBar>)
    requires UniqueEvents(events)
    ensures DistinctKeys(Minutes(events))
  {
    if events != [] {
      var front, last := events[..|events| - 1], events[|events| - 1];
      MinutesDistinct(front);
      var before := Minutes(front);
      forall i | 0 <= i < |before| && last.timeframe.OneMinute?
        ensures (before[i].symbol, before[i].start) != (last.symbol, last.start)
      {
        MinutesMembers(front, before[i]);
        assert before[i] in before;
        var j :| 0 <= j < |front| && front[j] == before[i];
        assert events[j] == front[j];
      }
    }
  }

  lemma {:induction false} PickedDistinct(rows: seq<ClosedBar>, s: Symbol, start: int)
    requires DistinctKeys(rows)
    ensures DistinctStarts(RowsOf(rows, s, start))
  {
    if rows != [] {
      var front, last := rows[..|rows| - 1], rows[|rows| - 1];
      PickedDistinct(front, s, start);
      var picked := RowsOf(front, s, start);
      forall i | 0 <= i < |picked| && last.symbol == s ensures picked[i].start != last.start {
        RowsOfMembers(front, s, start, picked[i]);
        assert picked[i] in picked;
        var j :| 0 <= j < |front| && front[j] == picked[i];
        assert rows[j] == front[j];
      }
    }
  }

  lemma {:induction false} InsertDistinctStart(rows: seq<ClosedBar>, bar: ClosedBar)
    requires DistinctStarts(rows) && forall x :: x in rows ==> x.start != bar.start
    ensures DistinctStarts(InsertByStart(rows, bar))
  {
    if rows != [] && !(rows[|rows| - 1].start <= bar.start) {
      var front, last := rows[..|rows| - 1], rows[|rows| - 1];
      InsertDistinctStart(front, bar);
      var r := InsertByStart(front, bar);
      forall i | 0 <= i < |r| ensures r[i].start != last.start {
        InsertMembers(front, bar, r[i]);
        assert r[i] in r;
        assert last in rows;
        if r[i] in front {
          var j :| 0 <= j < |front| && front[j] == r[i];
          assert rows[j] == front[j];
        }
      }
    }
  }

  lemma {:induction false} SortDistinct(rows: seq<ClosedBar>)
    requires DistinctStarts(rows)
    ensures DistinctStarts(SortByStart(rows))
  {
    if rows != [] {
      SortDistinct(rows[..|rows| - 1]);
      forall x | x in SortByStart(rows[..|rows| - 1]) ensures x.start != rows[|rows| - 1].start {
        SortMembers(rows[..|rows| - 1], x);
      }
      InsertDistinctStart(SortByStart(rows[..|rows| - 1]), rows[|rows| - 1]);
    }
  }

  predicate HasStart(rows: seq<ClosedBar>, t: int) {
    exists i :: 0 <= i < |rows| && rows[i].start == t
  }

  /** Every row starts at or after `low` and before `high`. */
  predicate StartsWithin(rows: seq<ClosedBar>, low: int, high: int) {
    forall i :: 0 <= i < |rows| ==> low <= rows[i].start < high
  }

  /** Every minute from `low` to `high` has a row. */
  predicate Covers(rows: seq<ClosedBar>, low: int, high: int) {
    forall t :: low <= t < high ==> HasStart(rows, t)
  }

  lemma RoomBetween(rows: seq<ClosedBar>, low: int, high: int)
    requires StartsWithin(rows, low, high) && rows != []
    ensures low < high
  {
    assert low <= rows[0].start;
  }

  /** The last row has the last minute, and the others cover the rest. */
  lemma LastOfCover(rows: seq<ClosedBar>, low: int, last: int)
    requires ByStart(rows) && DistinctStarts(rows) && low <= last
    requires StartsWithin(rows, low, last + 1) && Covers(rows, low, last + 1)
    ensures rows != [] && rows[|rows| - 1].start == last
    ensures StartsWithin(rows[..|rows| - 1], low, last) && Covers(rows[..|rows| - 1], low, last)
  {
    assert HasStart(rows, last);
    var front := rows[..|rows| - 1];
    forall t | low <= t < last ensures HasStart(front, t) {
      assert HasStart(rows, t);
      var j :| 0 <= j < |rows| && rows[j].start == t;
      assert front[j] == rows[j];
    }
  }

  /** Sorted distinct minutes that cover an interval are its minutes one after the other. */
  lemma {:induction false} Consecutive(rows: seq<ClosedBar>, start: int, n: nat)
    requires ByStart(rows) && DistinctStarts(rows)
    requires StartsWithin(rows, start, start + n) && Covers(rows, start, start + n)
    ensures |rows| == n && forall k :: 0 <= k < n ==> rows[k].start == start + k
    decreases n
  {
    if rows != [] {
      RoomBetween(rows, start, start + n);
    }
    if n > 0 {
      LastOfCover(rows, start, start + n - 1);
      Consecutive(rows[..|rows| - 1], start, n - 1);
    }
  }

  /** A full bucket has a row for each of its minutes. */
  lemma IntervalCovers(session: Session, events: seq<ClosedBar>, s: Symbol, start: int)
    requires Complete(BarsOf(events), s, start)
    ensures Covers(Interval(Minutes(events), s, start), start, start + BUCKET)
  {
    var interval := Interval(Minutes(events), s, start);
    forall t | start <= t < start + BUCKET ensures HasStart(interval, t) {
      BarsAreStored(events, (s, t));
      var bar := BarsOf(events)[(s, t)];
      MinutesMembers(events, bar);
      IntervalMembers(Minutes(events), s, start, bar);
      var i :| 0 <= i < |interval| && interval[i] == bar;
      assert interval[i].start == t;
    }
  }

  lemma IntervalIsConsecutive(session: Session, events: seq<ClosedBar>, s: Symbol, start: int)
    requires UniqueEvents(events) && Complete(BarsOf(events), s, start)
    ensures var interval := Interval(Minutes(events), s, start);
            |interval| == BUCKET && forall k :: 0 <= k < BUCKET ==> interval[k].start == start + k
  {
    IntervalIsOrdered(events, s, start);
    IntervalCovers(session, events, s, start);
    var rows := Interval(Minutes(events), s, start);
    forall i | 0 <= i < |rows| ensures start <= rows[i].start < start + BUCKET {
      IntervalMembers(Minutes(events), s, start, rows[i]);
    }
    Consecutive(rows, start, BUCKET);
  }

  /** The batch interval of a full bucket has the very bars the pipeline aggregated. */
  lemma IntervalIsComponents(session: Session, events: seq<ClosedBar>, s: Symbol, start: int)
    requires Recorded(session, events) && Complete(BarsOf(events), s, start)
    ensures Interval(Minutes(events), s, start) == Components(BarsOf(events), s, start)
  {
    var interval, components := Interval(Minutes(events), s, start), Components(BarsOf(events), s, start);
    IntervalIsConsecutive(session, events, s, start);
    forall k | 0 <= k < BUCKET ensures interval[k] == components[k] {
      assert interval[k] in interval;
      InIntervalInBars(session, events, s, start, interval[k]);
    }
    assert interval == components;
  }

  lemma IntervalIsOrdered(events: seq<ClosedBar>, s: Symbol, start: int)
    requires UniqueEvents(events)
    ensures var interval := Interval(Minutes(events), s, start); ByStart(interval) && DistinctStarts(interval)
  {
    MinutesDistinct(events);
    PickedDistinct(Minutes(events), s, start);
    SortOrders(RowsOf(Minutes(events), s, start));
    SortDistinct(RowsOf(Minutes(events), s, start));
  }

  lemma InIntervalInBars(session: Session, events: seq<ClosedBar>, s: Symbol, start: int, bar: ClosedBar)
    requires Recorded(session, events) && bar in Interval(Minutes(events), s, start)
    ensures bar.symbol == s && start <= bar.start < start + BUCKET && session.Official(bar.start)
    ensures (s, bar.start) in BarsOf(events) && BarsOf(events)[(s, bar.start)] == bar
  {
    IntervalMembers(Minutes(events), s, start, bar);
    MinutesMembers(events, bar);
    assert GoodEvent(session, BarsOf(events), bar);
  }

  lemma StartIsAligned(session: Session, n: nat)
    ensures (StartOf(session, n) - session.opens) % BUCKET == 0
  {}

  /** An interval is complete in the batch exactly when the pipeline emitted the bucket. */
  lemma CompleteIffEmitted(session: Session, events: seq<ClosedBar>, s: Symbol, n: nat)
    requires Recorded(session, events)
    ensures CompleteInterval(session, Interval(Minutes(events), s, StartOf(session, n)), StartOf(session, n)) <==>
            (s, StartOf(session, n)) in EmittedOf(events)
  {
    var start := StartOf(session, n);
    StartIsAligned(session, n);
    assert (s, start) in EmittedOf(events) <==> FullBucket(session, BarsOf(events), (s, start));
    if CompleteInterval(session, Interval(Minutes(events), s, start), start) {
      CompleteInBatch(session, events, s, start);
    }
    if Complete(BarsOf(events), s, start) {
      CompleteInStream(session, events, s, start);
    }
  }

  lemma CompleteInBatch(session: Session, events: seq<ClosedBar>, s: Symbol, start: int)
    requires Recorded(session, events) && CompleteInterval(session, Interval(Minutes(events), s, start), start)
    ensures Complete(BarsOf(events), s, start)
  {
    var interval := Interval(Minutes(events), s, start);
    forall t | start <= t < start + BUCKET ensures (s, t) in BarsOf(events) {
      var bar := interval[t - start];
      assert bar in interval && bar.start == start + (t - start);
      InIntervalInBars(session, events, s, start, bar);
    }
  }

  lemma CompleteInStream(session: Session, events: seq<ClosedBar>, s: Symbol, start: int)
    requires Recorded(session, events) && Complete(BarsOf(events), s, start)
    ensures CompleteInterval(session, Interval(Minutes(events), s, start), start)
  {
    IntervalIsComponents(session, events, s, start);
    var interval := Interval(Minutes(events), s, start);
    forall k | 0 <= k < BUCKET ensures interval[k].start == start + k && session.Official(start + k) {
      assert interval[k] in interval;
      InIntervalInBars(session, events, s, start, interval[k]);
      assert interval[k] == BarsOf(events)[(s, start + k)];
      BarsAreStored(events, (s, start + k));
    }
  }

  predicate Agrees(e: ClosedBar, r: ResampledBar) {
    && e.symbol == r.symbol && e.start == r.start && r.availableAt == e.End() <= e.availableAt
    && Ohlcv(e.open, e.high, e.low, e.close, e.volume) == r.values
  }

  /** Every bar the pipeline emitted is a row of the batch. */
  lemma StreamIsInBatch(session: Session, events: seq<ClosedBar>, e: ClosedBar) returns (r: ResampledBar)
    requires Recorded(session, events) && e in events && e.timeframe.FifteenMinutes?
    ensures r in Resampled(session, Minutes(events)) && Agrees(e, r)
  {
    var n := NumberOf(session, events, e);
    CompleteIffEmitted(session, events, e.symbol, n);
    r := ResampledRow(e.symbol, e.start, Components(BarsOf(events), e.symbol, e.start));
    RowIsAggregate(session, events, e, n, r);
    RowsForHas(session, Minutes(events), e.symbol, Intervals(session), n, r);
  }

  // ----- What the batch says of its rows -----

  /** The minutes from `start` on, each a row of symbol `s`. */
  ghost predicate MinutesOf(rows: seq<ClosedBar>, s: Symbol, start: int, c: seq<ClosedBar>) {
    |c| == 15 && forall k :: 0 <= k < 15 ==> c[k] in rows && c[k].symbol == s && c[k].start == start + k
  }

  lemma SymbolOfRow(session: Session, rows: seq<ClosedBar>, r: ResampledBar) returns (s: Symbol)
    requires r in Resampled(session, rows)
    ensures r in RowsFor(session, rows, s, Intervals(session))
  {
    var n := Intervals(session);
    s := if r in RowsFor(session, rows, IWM, n) then IWM else if r in RowsFor(session, rows, QQQ, n) then QQQ else SPY;
  }

  /** A row of the batch sums up fifteen official minutes from a boundary on. */
  lemma BatchRowSumsUp(session: Session, rows: seq<ClosedBar>, r: ResampledBar) returns (c: seq<ClosedBar>)
    requires r in Resampled(session, rows)
    ensures FromMinutes(session, rows, r, c)
  {
    var s := SymbolOfRow(session, rows, r);
    var n := RowsForOnly(session, rows, s, Intervals(session), r);
    c := RowSumsUp(session, rows, s, n, r);
  }

  /** The row sums up these fifteen official minutes. */
  ghost predicate FromMinutes(session: Session, rows: seq<ClosedBar>, r: ResampledBar, c: seq<ClosedBar>) {
    && MinutesOf(rows, r.symbol, r.start, c) && SumsUp(r.values, c) && r.availableAt == r.start + 15
    && (r.start - session.opens) % 15 == 0 && session.Official(r.start) && session.Official(r.start + 14)
  }

  lemma RowSumsUp(session: Session, rows: seq<ClosedBar>, s: Symbol, n: nat, r: ResampledBar)
    returns (c: seq<ClosedBar>)
    requires IsRow(session, rows, s, n, r)
    ensures FromMinutes(session, rows, r, c)
  {
    var start := StartOf(session, n);
    c := Interval(rows, s, start);
    StartIsAligned(session, n);
    CompleteFacts(session, c, start);
    IntervalMinutes(rows, s, start, c);
    OhlcvSumsUp(c);
  }

  lemma CompleteFacts(session: Session, c: seq<ClosedBar>, start: int)
    requires CompleteInterval(session, c, start)
    ensures |c| == 15 && session.Official(start) && session.Official(start + 14)
    ensures forall k :: 0 <= k < 15 ==> c[k].start == start + k
  {
    assert c[0].start == start + 0 && c[14].start == start + 14;
  }

  lemma IntervalMinutes(rows: seq<ClosedBar>, s: Symbol, start: int, c: seq<ClosedBar>)
    requires c == Interval(rows, s, start) && |c| == 15 && forall k :: 0 <= k < 15 ==> c[k].start == start + k
    ensures MinutesOf(rows, s, start, c)
  {
    forall k | 0 <= k < 15 ensures c[k] in rows && c[k].symbol == s {
      assert c[k] in c;
      IntervalMembers(rows, s, start, c[k]);
    }
  }

  /** Fifteen official minutes from a boundary on have a row, when no minute has two bars. */
  lemma CoveredHasRow(session: Session, rows: seq<ClosedBar>, s: Symbol, start: int, c: seq<ClosedBar>)
    returns (r: ResampledBar)
    requires DistinctKeys(rows) && MinutesOf(rows, s, start, c)
    requires start >= session.opens && (start - session.opens) % 15 == 0 && session.Official(start) &&
             session.Official(start + 14)
    ensures r in Resampled(session, rows) && r.symbol == s && r.start == start
  {
    var n := NumberOfBoundary(session, start);
    CoveredIsConsecutive(rows, s, start, c);
    r := ResampledRow(s, start, Interval(rows, s, start));
    assert IsRow(session, rows, s, n, r);
    RowsForHas(session, rows, s, Intervals(session), n, r);
  }

  lemma NumberOfBoundary(session: Session, start: int) returns (n: nat)
    requires start >= session.opens && (start - session.opens) % 15 == 0 && session.Official(start)
    ensures StartOf(session, n) == start && n < Intervals(session)
  {
    n := (start - session.opens) / 15;
    assert start - session.opens == n * 15;
  }

  lemma CoveredIsConsecutive(rows: seq<ClosedBar>, s: Symbol, start: int, c: seq<ClosedBar>)
    requires DistinctKeys(rows) && MinutesOf(rows, s, start, c)
    ensures var interval := Interval(rows, s, start);
            |interval| == 15 && forall k :: 0 <= k < 15 ==> interval[k].start == start + k
  {
    var interval := Interval(rows, s, start);
    PickedDistinct(rows, s, start);
    SortOrders(RowsOf(rows, s, start));
    SortDistinct(RowsOf(rows, s, start));
    forall i | 0 <= i < |interval| ensures start <= interval[i].start < start + 15 {
      assert interval[i] in interval;
      IntervalMembers(rows, s, start, interval[i]);
    }
    forall t | start <= t < start + 15 ensures HasStart(interval, t) {
      var bar := c[t - start];
      IntervalMembers(rows, s, start, bar);
      var i :| 0 <= i < |interval| && interval[i] == bar;
      assert interval[i].start == t;
    }
    Consecutive(interval, start, 15);
  }

  /** By symbol, and then by time. */
  predicate Precedes(a: ResampledBar, b: ResampledBar) {
    FirstLetter(a.symbol) < FirstLetter(b.symbol) || (a.symbol == b.symbol && a.start < b.start)
  }

  predicate InRowOrder(rs: seq<ResampledBar>) {
    forall i, j :: 0 <= i < j < |rs| ==> Precedes(rs[i], rs[j])
  }

  lemma StartsGrow(session: Session, n: nat, next: nat)
    requires next == n + 1
    ensures StartOf(session, next) == StartOf(session, n) + 15
  {}

  /** At most one row, of `s` and with this start. */
  predicate OneRow(rs: seq<ResampledBar>, s: Symbol, start: int) {
    |rs| <= 1 && forall i :: 0 <= i < |rs| ==> rs[i].symbol == s && rs[i].start == start
  }

  /** Rows of `s` that start before `end`, in order. */
  predicate OrderedBefore(rs: seq<ResampledBar>, s: Symbol, end: int) {
    InRowOrder(rs) && forall i :: 0 <= i < |rs| ==> rs[i].symbol == s && rs[i].start < end
  }

  lemma OneMoreRow(rs: seq<ResampledBar>, more: seq<ResampledBar>, s: Symbol, start: int)
    requires OrderedBefore(rs, s, start) && OneRow(more, s, start)
    ensures OrderedBefore(rs + more, s, start + 15)
  {}

  lemma {:induction false} CollectedInOrder(f: nat -> seq<ResampledBar>, session: Session, s: Symbol, n: nat)
    requires forall k: nat :: OneRow(f(k), s, StartOf(session, k))
    ensures OrderedBefore(Collected(f, n), s, StartOf(session, n))
  {
    if n > 0 {
      CollectedInOrder(f, session, s, n - 1);
      StartsGrow(session, n - 1, n);
      assert OneRow(f(n - 1), s, StartOf(session, n - 1));
      OneMoreRow(Collected(f, n - 1), f(n - 1), s, StartOf(session, n - 1));
    }
  }

  lemma RowForIsOne(session: Session, rows: seq<ClosedBar>, s: Symbol, n: nat)
    ensures OneRow(RowFor(session, rows, s, n), s, StartOf(session, n))
  {}

  lemma RowsForInOrder(session: Session, rows: seq<ClosedBar>, s: Symbol, n: nat)
    ensures OrderedBefore(RowsFor(session, rows, s, n), s, StartOf(session, n))
  {
    var f := RowOf(session, rows, s);
    forall k: nat ensures OneRow(f(k), s, StartOf(session, k)) {
      RowForIsOne(session, rows, s, k);
    }
    CollectedInOrder(f, session, s, n);
  }

  /** The batch is in order, so it has no row twice. */
  lemma BatchInOrder(session: Session, rows: seq<ClosedBar>)
    ensures InRowOrder(Resampled(session, rows))
  {
    var n := Intervals(session);
    RowsForInOrder(session, rows, IWM, n);
    RowsForInOrder(session, rows, QQQ, n);
    RowsForInOrder(session, rows, SPY, n);
    var a, b, c := RowsFor(session, rows, IWM, n), RowsFor(session, rows, QQQ, n), RowsFor(session, rows, SPY, n);
    OrderOfTwo(a, b);
    OrderOfTwo(a + b, c);
  }

  lemma OrderOfTwo(a: seq<ResampledBar>, b: seq<ResampledBar>)
    requires InRowOrder(a) && InRowOrder(b)
    requires forall i, j :: 0 <= i < |a| && 0 <= j < |b| ==> FirstLetter(a[i].symbol) < FirstLetter(b[j].symbol)
    ensures InRowOrder(a + b)
  {}

  /** The number of the interval of an emitted bar. */
  lemma NumberOf(session: Session, events: seq<ClosedBar>, e: ClosedBar) returns (n: nat)
    requires Recorded(session, events) && e in events && e.timeframe.FifteenMinutes?
    ensures e.start == StartOf(session, n) && n < Intervals(session)
    ensures (e.symbol, e.start) in EmittedOf(events) && Complete(BarsOf(events), e.symbol, e.start)
    ensures e == Aggregate(BarsOf(events), e.symbol, e.start)
  {
    assert GoodEvent(session, BarsOf(events), e);
    var first := BarsOf(events)[(e.symbol, e.start)];
    BarsAreStored(events, (e.symbol, e.start));
    assert GoodEvent(session, BarsOf(events), first);
    n := (e.start - session.opens) / BUCKET;
  }

  lemma RowIsAggregate(session: Session, events: seq<ClosedBar>, e: ClosedBar, n: nat, r: ResampledBar)
    requires Recorded(session, events) && e in events && e.timeframe.FifteenMinutes? && e.start == StartOf(session, n)
    requires Complete(BarsOf(events), e.symbol, e.start) && e == Aggregate(BarsOf(events), e.symbol, e.start)
    requires CompleteInterval(session, Interval(Minutes(events), e.symbol, e.start), e.start)
    requires r == ResampledRow(e.symbol, e.start, Components(BarsOf(events), e.symbol, e.start))
    ensures IsRow(session, Minutes(events), e.symbol, n, r) && Agrees(e, r)
  {
    IntervalIsComponents(session, events, e.symbol, e.start);
    LateAsItsBars(session, events, e);
  }

  lemma LateAsItsBars(session: Session, events: seq<ClosedBar>, e: ClosedBar)
    requires Recorded(session, events) && e in events && e.timeframe.FifteenMinutes?
    ensures e.End() <= e.availableAt
  {
    assert GoodEvent(session, BarsOf(events), e);
    var last := BarsOf(events)[(e.symbol, e.start + (BUCKET - 1))];
    BarsAreStored(events, (e.symbol, e.start + (BUCKET - 1)));
    assert GoodEvent(session, BarsOf(events), last);
    assert Components(BarsOf(events), e.symbol, e.start)[BUCKET - 1] == last;
  }

  /** Every row of the batch was emitted by the pipeline. */
  lemma BatchIsInStream(session: Session, events: seq<ClosedBar>, r: ResampledBar) returns (e: ClosedBar)
    requires Recorded(session, events) && r in Resampled(session, Minutes(events))
    ensures e in events && e.timeframe.FifteenMinutes? && Agrees(e, r)
  {
    var rows := Minutes(events);
    var s: Symbol :| r in RowsFor(session, rows, s, Intervals(session));
    var n := RowsForOnly(session, rows, s, Intervals(session), r);
    CompleteIffEmitted(session, events, s, n);
    EmittedAreStored(events, (s, StartOf(session, n)));
    var i :| 0 <= i < |events| && events[i].timeframe.FifteenMinutes? &&
             (events[i].symbol, events[i].start) == (s, StartOf(session, n));
    e := events[i];
    var m := NumberOf(session, events, e);
    IntervalIsComponents(session, events, s, e.start);
    RowIsAggregate(session, events, e, n, r);
  }
}
