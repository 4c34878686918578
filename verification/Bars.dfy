/** Closed bars of one session, the buckets they fill and the bar a full bucket gives. */
module Bars {
  import opened Orders

  const BUCKET := 15

  datatype Timeframe = OneMinute | FifteenMinutes

  /** The id the provider gave, or the hash of the ids behind an aggregate, taken to be injective. */
  datatype BarId = Provided(id: int) | Combined(ids: seq<BarId>)

  datatype ClosedBar =
    ClosedBar(id: BarId, symbol: Symbol, timeframe: Timeframe, start: int, availableAt: int,
              open: real, high: real, low: real, close: real, volume: int)
  {
    function End(): int { start + if timeframe.OneMinute? then 1 else BUCKET }

    /** What constructing a bar checks. */
    predicate Valid() {
      && availableAt >= End()
      && open > 0.0 && high > 0.0 && low > 0.0 && close > 0.0 && volume >= 0
      && high >= open && high >= close && high >= low
      && low <= open && low <= close
    }
  }

  /** The official minutes of a session; `availableAt` counts in the same unit from the open. */
  datatype Session = Session(opens: int, length: nat) {
    predicate Official(t: int) { opens <= t < opens + length }

    /** First minute of the bucket that `t` falls into. */
    function BucketStart(t: int): int
      requires Official(t)
    {
      opens + (t - opens) / BUCKET * BUCKET
    }
  }

  type Key = (Symbol, int)

  /** Every minute of the bucket is there. */
  predicate Complete(bars: map<Key, ClosedBar>, s: Symbol, start: int) {
    forall t :: start <= t < start + BUCKET ==> (s, t) in bars
  }

  function Components(bars: map<Key, ClosedBar>, s: Symbol, start: int): (c: seq<ClosedBar>)
    requires Complete(bars, s, start)
    ensures |c| == BUCKET && forall k :: 0 <= k < BUCKET ==> c[k] == bars[(s, start + k)]
  {
    seq(BUCKET, k requires 0 <= k < BUCKET => bars[(s, start + k)])
  }

  // ----- Open, high, low, close, volume -----

  function Highest(bars: seq<ClosedBar>): (h: real)
    requires bars != []
    ensures forall k :: 0 <= k < |bars| ==> bars[k].high <= h
    ensures exists k :: 0 <= k < |bars| && bars[k].high == h
  {
    var last := bars[|bars| - 1].high;
    if |bars| == 1 then last
    else
      var before := Highest(bars[..|bars| - 1]);
      assert forall k :: 0 <= k < |bars| - 1 ==> bars[..|bars| - 1][k] == bars[k];
      if last > before then last else before
  }

  function Lowest(bars: seq<ClosedBar>): (l: real)
    requires bars != []
    ensures forall k :: 0 <= k < |bars| ==> l <= bars[k].low
    ensures exists k :: 0 <= k < |bars| && bars[k].low == l
  {
    var last := bars[|bars| - 1].low;
    if |bars| == 1 then last
    else
      var before := Lowest(bars[..|bars| - 1]);
      assert forall k :: 0 <= k < |bars| - 1 ==> bars[..|bars| - 1][k] == bars[k];
      if last < before then last else before
  }

  function Volume(bars: seq<ClosedBar>): int {
    if bars == [] then 0 else Volume(bars[..|bars| - 1]) + bars[|bars| - 1].volume
  }

  /** The latest moment at which one of the bars became available. */
  function Available(bars: seq<ClosedBar>): (t: int)
    requires bars != []
    ensures forall k :: 0 <= k < |bars| ==> bars[k].availableAt <= t
    ensures exists k :: 0 <= k < |bars| && bars[k].availableAt == t
  {
    var last := bars[|bars| - 1].availableAt;
    if |bars| == 1 then last
    else
      var before := Available(bars[..|bars| - 1]);
      assert forall k :: 0 <= k < |bars| - 1 ==> bars[..|bars| - 1][k] == bars[k];
      if last > before then last else before
  }

  datatype Ohlcv = Ohlcv(open: real, high: real, low: real, close: real, volume: int)

  function OhlcvOf(bars: seq<ClosedBar>): Ohlcv
    requires bars != []
  {
    Ohlcv(bars[0].open, Highest(bars), Lowest(bars), bars[|bars| - 1].close, Volume(bars))
  }

  function Ids(bars: seq<ClosedBar>): seq<BarId> {
    seq(|bars|, k requires 0 <= k < |bars| => bars[k].id)
  }

  /** The fifteen-minute bar of a complete bucket. */
  function Aggregate(bars: map<Key, ClosedBar>, s: Symbol, start: int): ClosedBar
    requires Complete(bars, s, start)
  {
    var c := Components(bars, s, start);
    ClosedBar(Combined(Ids(c)), s, FifteenMinutes, start, Available(c), c[0].open, Highest(c), Lowest(c),
              c[BUCKET - 1].close, Volume(c))
  }

  lemma {:induction false} VolumeNonNegative(bars: seq<ClosedBar>)
    requires forall k :: 0 <= k < |bars| ==> bars[k].volume >= 0
    ensures Volume(bars) >= 0
  {
    if bars != [] {
      VolumeNonNegative(bars[..|bars| - 1]);
    }
  }

  // ----- What the values mean -----

  lemma VolumeOfOne(bar: ClosedBar)
    ensures Volume([bar]) == bar.volume
  {
    assert [bar][..0] == [];
  }

  lemma {:induction false} VolumeOfTwo(a: seq<ClosedBar>, b: seq<ClosedBar>)
    ensures Volume(a + b) == Volume(a) + Volume(b)
    decreases |b|
  {
    if b == [] {
      assert a + b == a;
    } else {
      VolumeOfTwo(a, b[..|b| - 1]);
      assert (a + b)[..|a + b| - 1] == a + b[..|b| - 1];
    }
  }

  lemma VolumeNext(c: seq<ClosedBar>, k: nat)
    requires k < |c|
    ensures Volume(c[..k + 1]) == Volume(c[..k]) + c[k].volume
  {
    assert c[..k + 1] == c[..k] + [c[k]];
    VolumeOfTwo(c[..k], [c[k]]);
    VolumeOfOne(c[k]);
  }

  lemma VolumeOfFive(c: seq<ClosedBar>)
    requires |c| == 5
    ensures Volume(c) == c[0].volume + c[1].volume + c[2].volume + c[3].volume + c[4].volume
  {
    VolumeNext(c, 4);
    VolumeNext(c, 3);
    VolumeNext(c, 2);
    VolumeNext(c, 1);
    VolumeNext(c, 0);
    assert c[..5] == c && c[..0] == [];
  }

  /** Of fifteen bars: the open of the first, the close of the last, the greatest high, the least low,
      and the sum of all volumes. */
  ghost predicate SumsUp(o: Ohlcv, c: seq<ClosedBar>) {
    && |c| == 15
    && o.open == c[0].open && o.close == c[14].close
    && (forall k :: 0 <= k < 15 ==> c[k].low >= o.low && c[k].high <= o.high)
    && (exists k :: 0 <= k < 15 && c[k].high == o.high)
    && (exists k :: 0 <= k < 15 && c[k].low == o.low)
    && o.volume == c[0].volume + c[1].volume + c[2].volume + c[3].volume + c[4].volume + c[5].volume + c[6].volume +
                   c[7].volume + c[8].volume + c[9].volume + c[10].volume + c[11].volume + c[12].volume + c[13].volume +
                   c[14].volume
  }

  lemma OhlcvSumsUp(c: seq<ClosedBar>)
    requires |c| == 15
    ensures SumsUp(OhlcvOf(c), c)
  {
    VolumeOfTwo(c[..5], c[5..10]);
    VolumeOfTwo(c[..5] + c[5..10], c[10..]);
    assert c == c[..5] + c[5..10] + c[10..];
    VolumeOfFive(c[..5]);
    VolumeOfFive(c[5..10]);
    VolumeOfFive(c[10..]);
    var h :| 0 <= h < 15 && c[h].high == Highest(c);
    var l :| 0 <= l < 15 && c[l].low == Lowest(c);
  }

  /** The aggregate of a bucket sums up its fifteen minutes in order, is available with the last of
      them to arrive, and its id is made of theirs. */
  lemma AggregateSumsUp(bars: map<Key, ClosedBar>, s: Symbol, start: int)
    requires Complete(bars, s, start)
    ensures var a := Aggregate(bars, s, start);
            var c := Components(bars, s, start);
            && SumsUp(Ohlcv(a.open, a.high, a.low, a.close, a.volume), c)
            && a.symbol == s && a.start == start && a.timeframe.FifteenMinutes? && a.End() == start + 15
            && a.id.Combined? && |a.id.ids| == 15 && (forall k :: 0 <= k < 15 ==> a.id.ids[k] == c[k].id)
            && (forall k :: 0 <= k < 15 ==> c[k].availableAt <= a.availableAt)
            && (exists k :: 0 <= k < 15 && c[k].availableAt == a.availableAt)
  {
    var c := Components(bars, s, start);
    OhlcvSumsUp(c);
    var k :| 0 <= k < |c| && c[k].availableAt == Available(c);
  }

  /** The aggregate of valid minute bars passes the checks of its own construction. */
  lemma AggregateIsValid(bars: map<Key, ClosedBar>, s: Symbol, start: int)
    requires Complete(bars, s, start)
    requires forall k :: k in bars ==> bars[k].Valid() && bars[k].timeframe.OneMinute? && bars[k].start == k.1
    ensures Aggregate(bars, s, start).Valid()
  {
    var c := Components(bars, s, start);
    forall k | 0 <= k < BUCKET ensures c[k].Valid() && c[k].timeframe.OneMinute? && c[k].start == start + k {
      assert (s, start + k) in bars;
    }
    VolumeNonNegative(c);
    assert c[0].high >= c[0].open && c[0].low <= c[0].open;
    assert c[BUCKET - 1].availableAt >= start + BUCKET;
    var l :| 0 <= l < |c| && c[l].low == Lowest(c);
    assert c[l].high >= c[l].low;
  }

  // ----- Buckets -----

  lemma BucketFacts(session: Session, t: int, start: int)
    requires session.Official(t)
    requires start == session.BucketStart(t)
    ensures start <= t < start + BUCKET
    ensures (start - session.opens) % BUCKET == 0 && session.opens <= start
  {
    var q := (t - session.opens) / BUCKET;
    assert t - session.opens == q * BUCKET + (t - session.opens) % BUCKET;
  }

  /** A minute lies in one bucket only. */
  lemma OneBucket(session: Session, t: int, start: int)
    requires session.Official(t) && (start - session.opens) % BUCKET == 0 && start <= t < start + BUCKET
    ensures start == session.BucketStart(t)
  {
    BucketFacts(session, t, session.BucketStart(t));
    var a, b := (start - session.opens) / BUCKET, (session.BucketStart(t) - session.opens) / BUCKET;
    assert start - session.opens == a * BUCKET && session.BucketStart(t) - session.opens == b * BUCKET;
  }

  /** The buckets of a session that are complete. */
  ghost predicate FullBucket(session: Session, bars: map<Key, ClosedBar>, key: Key) {
    (key.1 - session.opens) % BUCKET == 0 && Complete(bars, key.0, key.1)
  }

  /** A new bar can complete only its own bucket. */
  lemma NewBarFills(session: Session, bars: map<Key, ClosedBar>, bar: ClosedBar, key: Key)
    requires session.Official(bar.start) && (bar.symbol, bar.start) !in bars
    ensures var after := bars[(bar.symbol, bar.start) := bar];
            FullBucket(session, after, key) <==>
            FullBucket(session, bars, key) ||
            (key == (bar.symbol, session.BucketStart(bar.start)) &&
             Complete(after, bar.symbol, session.BucketStart(bar.start)))
  {
    var after := bars[(bar.symbol, bar.start) := bar];
    BucketFacts(session, bar.start, session.BucketStart(bar.start));
    if FullBucket(session, after, key) && !Complete(bars, key.0, key.1) {
      var t :| key.1 <= t < key.1 + BUCKET && (key.0, t) !in bars;
      assert (key.0, t) in after;
      OneBucket(session, bar.start, key.1);
    }
  }

  /** The bucket of a new bar was not complete before. */
  lemma BucketWasOpen(session: Session, bars: map<Key, ClosedBar>, bar: ClosedBar)
    requires session.Official(bar.start) && (bar.symbol, bar.start) !in bars
    ensures !Complete(bars, bar.symbol, session.BucketStart(bar.start))
  {
    BucketFacts(session, bar.start, session.BucketStart(bar.start));
  }
}
