/** What the methods of a run say of a minute and of a session, and the small steps between those
    facts. */
module Stages {
  import opened Wrappers
  import opened Accounts
  import opened CashCover
  import opened Phases
  import opened Orders
  import opened Engine
  import opened Coupling
  import opened Pacing
  import opened StepLaws
  import opened SignalLaws
  import opened MinuteLaws
  import opened SessionLaws
  import opened Rows
  import opened Sweeps

  /** A method did what the step says; after an exception nothing is promised about the state,
      because the run is abandoned. */
  ghost predicate Took(step: Step, r: Result<(), Crash>, after: World) {
    match step
    case Success(v) => r == Success(()) && after == v
    case Failure(e) => r == Failure(e)
  }

  /** A session: its first minute, the bars of each official minute and the feature rows
      that become available at some of them. */
  datatype SessionInput =
    SessionInput(opens: int, minutes: seq<map<Symbol, Bar>>, rows: map<int, seq<SignalRow>>)
  {
    function Closes(): int { opens + |minutes| }

    /** First minute and closeout minute. */
    function Hours(buffer: int): Window { Window(opens, Closes() - buffer) }

    /** The closeout signal falls in the session. */
    predicate Tradable(buffer: int) { buffer < |minutes| }

    /** The end of an official 15-minute bar, the only times at which feature rows are accepted. */
    predicate Boundary(t: int) { opens < t <= Closes() && (t - opens) % 15 == 0 }

    predicate Valid(rules: Rules) {
      && (forall i, s :: 0 <= i < |minutes| && s in rules.symbols ==> s in minutes[i] && minutes[i][s].Valid())
      && (forall t :: t in rows ==> Boundary(t) && RowsOk(rows[t]))
    }

    function RowsAt(t: int): seq<SignalRow> { if t in rows then rows[t] else [] }

    /** Some row before minute `before` invites a buy with this cash. */
    predicate Invites(rules: Rules, scenario: Scenario, cash: real, before: int) {
      exists t, k :: t in rows && t < before && 0 <= k < |rows[t]| && rows[t][k].Invites(rules, scenario, cash)
    }

    /** Some row before the closeout signal could raise. */
    predicate Mispriced(rules: Rules, closeout: int) {
      exists t, k :: t in rows && t < closeout - 1 && 0 <= k < |rows[t]| && rows[t][k].Mispriced(rules)
    }
  }

  /** At most one row a symbol. */
  predicate RowsOk(rows: seq<SignalRow>) {
    forall j, k :: 0 <= j < k < |rows| ==> rows[j].symbol != rows[k].symbol
  }

  predicate AnyMispriced(rows: seq<SignalRow>, rules: Rules) {
    exists k :: 0 <= k < |rows| && rows[k].Mispriced(rules)
  }

  /** The exceptions that a mispriced row can raise. */
  predicate PriceCrash(e: Crash) { e.DivisionByZero? || e.InvalidIntent? }

  /** Every traded symbol has a bar. */
  predicate BarsOk(c: Ctx, bars: map<Symbol, Bar>) {
    forall s :: s in c.rules.symbols ==> s in bars && bars[s].Valid()
  }

  /** What is left of `orders` after the bars of the minute. */
  ghost predicate Remain(orders: map<OrderId, PendingOrder>, left: map<OrderId, PendingOrder>, todo: set<OrderId>,
                                c: Ctx, now: int, bars: map<Symbol, Bar>)
  {
    && (forall id :: id in left ==> id in orders && left[id] == orders[id])
    && (forall id :: id in todo ==> id in left)
    && (forall id :: id in orders && id !in todo && id.symbol in bars ==>
          (id in left <==> !Touched(orders[id].intent, bars[id.symbol], now)))
  }

  /** The bars of minute `t` touch none of the working orders. */
  ghost predicate NoneTouched(pending: map<OrderId, PendingOrder>, bars: map<Symbol, Bar>, t: int) {
    forall id :: id in pending && id.symbol in bars ==> !Touched(pending[id].intent, bars[id.symbol], t)
  }

  lemma RemainUntouched(orders: map<OrderId, PendingOrder>, left: map<OrderId, PendingOrder>, c: Ctx, t: int,
                        bars: map<Symbol, Bar>)
    requires Remain(orders, left, {}, c, t, bars)
    ensures NoneTouched(left, bars, t)
  {}

  /** The orders of the risk exits are eligible two minutes later. */
  lemma SweptUntouched(w: World, pending: map<OrderId, PendingOrder>, c: Ctx, t: int, bars: map<Symbol, Bar>)
    requires AllSwept(w, pending, c, t, bars, {}) && NoneTouched(w.pending, bars, t)
    ensures NoneTouched(pending, bars, t)
  {
    forall id | id in pending && id.symbol in bars ensures !Touched(pending[id].intent, bars[id.symbol], t) {
      assert Lookup(pending, id) == Some(pending[id]);
      if id.symbol in w.account.positions {
        assert Swept(w, pending, c, t, id.symbol, bars[id.symbol].close);
      } else {
        assert SameOrders(w.pending, pending, id.symbol);
      }
    }
  }

  /** The forced sells are eligible from the next minute on. */
  lemma SoldOffUntouched(w: World, c: Ctx, t: int, bars: map<Symbol, Bar>)
    requires SoldOff(w, c, {}) && t == c.closeout - 1
    ensures NoneTouched(w.pending, bars, t)
  {
    forall id | id in w.pending && id.symbol in bars ensures !Touched(w.pending[id].intent, bars[id.symbol], t) {
      assert SoldWhole(w, c, id.symbol);
    }
  }

  lemma RemainStep(orders: map<OrderId, PendingOrder>, left: map<OrderId, PendingOrder>, todo: set<OrderId>,
                          c: Ctx, now: int, bars: map<Symbol, Bar>, id: OrderId, after: map<OrderId, PendingOrder>)
    requires Remain(orders, left, todo, c, now, bars) && id in todo && id in left && id.symbol in bars
    requires after == if Touched(left[id].intent, bars[id.symbol], now) then left - {id} else left
    ensures Remain(orders, after, todo - {id}, c, now, bars)
  {}

  /** The symbols of the rows still to come. */
  function Upcoming(rows: seq<SignalRow>): set<Symbol> {
    set k | 0 <= k < |rows| :: rows[k].symbol
  }

  /** What the signals of minute `now` do to the cover and the working orders. */
  ghost predicate SignalsKeep(w: World, v: World, now: int) {
    Extends(w, v, now) && SignalKeeps(w, v)
  }

  lemma UpcomingShrinks(rows: seq<SignalRow>, i: nat)
    requires RowsOk(rows) && i < |rows|
    ensures Upcoming(rows[i + 1..]) <= Upcoming(rows[i..]) && rows[i].symbol !in Upcoming(rows[i + 1..])
  {
    forall s | s in Upcoming(rows[i + 1..]) ensures s in Upcoming(rows[i..]) && s != rows[i].symbol {
      var k :| 0 <= k < |rows[i + 1..]| && rows[i + 1..][k].symbol == s;
      assert rows[i..][k + 1].symbol == s && rows[i + 1 + k].symbol == s;
    }
  }

  /** The positions outside `todo` stand at the close of the minute. */
  predicate MarkedTo(positions: map<Symbol, Position>, todo: set<Symbol>, bars: map<Symbol, Bar>) {
    && todo <= positions.Keys
    && forall s :: s in positions && s !in todo ==> s in bars && positions[s].marketPrice == bars[s].close
  }

  lemma MarkedStep(positions: map<Symbol, Position>, todo: set<Symbol>, bars: map<Symbol, Bar>, s: Symbol)
    requires MarkedTo(positions, todo, bars) && s in todo && s in bars
    ensures MarkedTo(positions[s := positions[s].(marketPrice := bars[s].close)], todo - {s}, bars)
  {}

  /** `left` is `orders` without those of `side`, except the ones in `todo`. */
  ghost predicate Cancelled(orders: map<OrderId, PendingOrder>, left: map<OrderId, PendingOrder>, todo: set<OrderId>,
                                   side: Option<Side>)
  {
    && (forall id :: id in left ==> id in orders && left[id] == orders[id])
    && (forall id :: id in todo ==> id in left)
    && (forall id :: id in orders && id !in todo ==> (id in left <==> side.Some? && id.side != side.value))
  }

  lemma CancelledStep(orders: map<OrderId, PendingOrder>, left: map<OrderId, PendingOrder>, todo: set<OrderId>,
                             side: Option<Side>, id: OrderId)
    requires Cancelled(orders, left, todo, side) && id in todo && (side.Some? ==> id.side == side.value)
    ensures Cancelled(orders, left - {id}, todo - {id}, side)
  {}

  /** Outside `todo`, whatever is held is being sold or within its limits. */
  ghost predicate AllGuarded(w: World, c: Ctx, d: Desk, now: int, bars: map<Symbol, Bar>, todo: set<Symbol>) {
    forall s :: s in w.account.positions && s !in todo && s in bars ==> Guarded(w, c, d, now, s, bars[s].close)
  }

  lemma GuardedStep(w: World, v: World, c: Ctx, d: Desk, later: Desk, now: int, bars: map<Symbol, Bar>,
                    todo: set<Symbol>, s: Symbol)
    requires AllGuarded(w, c, d, now, bars, todo) && s in bars && Guarded(v, c, later, now, s, bars[s].close)
    requires v.account.positions == w.account.positions && v.openTrades == w.openTrades
    requires forall x :: x in d ==> x in later
    ensures AllGuarded(v, c, later, now, bars, todo - {s})
  {
    forall x | x in v.account.positions && x !in todo - {s} && x in bars
      ensures Guarded(v, c, later, now, x, bars[x].close)
    {
      if x != s {
        assert Guarded(w, c, d, now, x, bars[x].close);
      }
    }
  }

  lemma BothSidesCancelled(orders: map<OrderId, PendingOrder>, middle: map<OrderId, PendingOrder>,
                           left: map<OrderId, PendingOrder>)
    requires Cancelled(orders, middle, {}, Some(Buy)) && Cancelled(middle, left, {}, Some(Sell))
    ensures left == map[]
  {}

  /** Only forced sells work at the closeout, and nothing at all after it. */
  ghost predicate Ready(w: World, c: Ctx, d: Desk, t: int) {
    && (t == c.closeout ==> AllForced(w.pending, c) && Winding(w, d))
    && (t > c.closeout ==> Done(w))
  }

  /** What holds at the start of every minute of a session. */
  ghost predicate AtMinute(w: World, c: Ctx, d: Desk, t: int) {
    Steady(w, c, d, t) && Keyed(w.intentKeys, c, t) && Ready(w, c, d, t)
  }

  lemma AllFill(orders: map<OrderId, PendingOrder>, left: map<OrderId, PendingOrder>, c: Ctx, bars: map<Symbol, Bar>)
    requires AllForced(orders, c) && Remain(orders, left, {}, c, c.closeout, bars)
    requires forall id :: id in orders ==> orders[id].intent.Valid() && id.symbol in bars && bars[id.symbol].Valid()
    ensures left == map[]
  {
    forall id | id in orders ensures Touched(orders[id].intent, bars[id.symbol], c.closeout) {
      assert TradedAt(bars[id.symbol], bars[id.symbol].low);
    }
  }

  lemma WindingWhenDone(w: World, d: Desk)
    requires Done(w)
    ensures Winding(w, d)
  {}

  lemma NextMinute(w: World, c: Ctx, d: Desk, t: int, before: set<OrderId>, middle: set<OrderId>)
    requires Steady(w, c, d, t) && Keyed(before, c, t) && AddsOnly(before, middle, c.session, SignalFamily, t)
    requires AddsOnly(middle, w.intentKeys, c.session, RiskFamily, t + 1) ||
             (t == c.closeout - 1 && AddsOnly(middle, w.intentKeys, c.session, CloseFamily, t))
    ensures Steady(w, c, d, t + 1) && Keyed(w.intentKeys, c, t + 1)
  {
    KeyedMinute(before, middle, w.intentKeys, c, t);
    PacedLater(w, c, d, t, t + 1);
  }

  lemma StillBefore(before: set<OrderId>, middle: set<OrderId>, c: Ctx, t: int)
    requires Keyed(before, c, t) && AddsOnly(before, middle, c.session, SignalFamily, t) && c.session !in c.past
    ensures Before(middle, c.session, RiskFamily, t + 1)
    ensures t < c.closeout ==> Before(middle, c.session, CloseFamily, t)
  {}

  lemma NoNewSignals(keys: set<OrderId>, after: set<OrderId>, c: Ctx, t: int)
    requires Before(keys, c.session, SignalFamily, t)
    requires AddsOnly(keys, after, c.session, RiskFamily, t + 1) || AddsOnly(keys, after, c.session, CloseFamily, t)
    ensures Before(after, c.session, SignalFamily, t)
  {}

  lemma InputAt(s: SessionInput, c: Ctx, t: int)
    requires s.Valid(c.rules) && s.opens <= t < s.Closes()
    ensures BarsOk(c, s.minutes[t - s.opens]) && RowsOk(s.RowsAt(t))
    ensures t < c.closeout - 1 && AnyMispriced(s.RowsAt(t), c.rules) ==> s.Mispriced(c.rules, c.closeout)
  {
    if AnyMispriced(s.RowsAt(t), c.rules) {
      assert t in s.rows;
    }
  }

  /** What keeps the cash covering the reservations whenever a signal asks: a limit buy costs what it
      reserved, and a market buy has filled long before the next rows arrive. */
  ghost predicate Sheltered(w: World, c: Ctx, s: SessionInput, t: int) {
    && (c.rules.orderType.Limit? ==> Snug(w.account))
    && (c.rules.orderType.Market? && (t == s.opens || s.RowsAt(t - 1) == []) ==> NoBuys(w.pending))
  }

  lemma ShelteredIsCovered(w: World, c: Ctx, d: Desk, s: SessionInput, t: int)
    requires Coupled(w, c, d) && Inv(w.account) && Sheltered(w, c, s, t) && s.Valid(c.rules) && s.RowsAt(t) != []
    ensures Covered(w.account)
  {
    assert s.Boundary(t) && !s.Boundary(t - 1);
    if c.rules.orderType.Market? {
      SnugWithoutBuys(w, c, d);
    }
    SnugIsCovered(w.account);
  }

  lemma InvitesLater(s: SessionInput, c: Ctx, cash: real, t: int, next: int)
    requires next == t + 1 && !s.Invites(c.rules, c.scenario, cash, t)
    requires !AnyInvites(s.RowsAt(t), |s.RowsAt(t)|, c, cash)
    ensures !s.Invites(c.rules, c.scenario, cash, next)
  {
    forall u, k | u in s.rows && u < next && 0 <= k < |s.rows[u]|
      ensures !s.rows[u][k].Invites(c.rules, c.scenario, cash)
    {
      if u == t {
        assert s.RowsAt(t) == s.rows[u];
      }
    }
  }

  lemma NothingInvitesYet(s: SessionInput, c: Ctx, cash: real)
    requires s.Valid(c.rules)
    ensures !s.Invites(c.rules, c.scenario, cash, s.opens)
  {}

  lemma StaysSheltered(w: World, v: World, c: Ctx, s: SessionInput, t: int, next: int)
    requires Sheltered(w, c, s, t) && BarKeeps(w, v, c) && next == t + 1
    requires s.RowsAt(t) == [] && c.rules.orderType.Market? ==> NoBuys(v.pending)
    requires s.opens <= t
    ensures Sheltered(v, c, s, next)
  {}

  /** What holds at minute `t` of a session that began in world `start`: without an intent no row so far
      has invited. */
  ghost predicate AtTime(start: World, w: World, c: Ctx, d: Desk, s: SessionInput, t: int) {
    && AtMinute(w, c, d, t) && Sheltered(w, c, s, t) && KeepsIntents(start, w)
    && (w.intents == [] ==>
          !s.Invites(c.rules, c.scenario, w.account.initialCash, if t < c.closeout then t else c.closeout - 1))
  }

  lemma NextTime(start: World, w: World, v: World, c: Ctx, d: Desk, later: Desk, s: SessionInput, t: int, next: int)
    requires AtTime(start, w, c, d, s, t) && AtMinute(v, c, later, next) && BarKeeps(w, v, c) && next == t + 1
    requires s.RowsAt(t) == [] && c.rules.orderType.Market? ==> NoBuys(v.pending)
    requires t < c.closeout - 1 && v.intents == [] ==> !AnyInvites(s.RowsAt(t), |s.RowsAt(t)|, c, v.account.initialCash)
    requires s.opens <= t && v.account.initialCash == w.account.initialCash
    ensures AtTime(start, v, c, later, s, next)
  {
    StaysSheltered(w, v, c, s, t, next);
    if v.intents == [] && t < c.closeout - 1 {
      InvitesLater(s, c, v.account.initialCash, t, next);
    }
  }

  lemma StartsSheltered(w: World, c: Ctx, s: SessionInput)
    requires Inv(w.account) && w.account.reservations == map[] && w.pending == map[]
    ensures Sheltered(w, c, s, s.opens)
  {}

  ghost predicate Closable(states: map<RuntimeKey, RuntimeState>, c: Ctx, todo: set<Symbol>) {
    forall s :: s in todo ==>
      var state := StateFor(states, RuntimeKey(s, c.session)); state.Valid() && !state.phase.SessionClosed?
  }

  lemma ClosableWhenFlat(w: World, c: Ctx)
    requires forall s :: State(w, c, s).Valid()
    requires forall s :: State(w, c, s).phase.Flat? || State(w, c, s).phase.Cooldown?
    ensures Closable(w.states, c, c.rules.symbols)
  {
    forall s ensures StateFor(w.states, RuntimeKey(s, c.session)) == State(w, c, s) {}
  }
}
