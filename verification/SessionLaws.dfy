/** The closeout and the seam between two sessions. */
module SessionLaws {
  import opened Wrappers
  import opened Accounts
  import opened AccountLaws
  import opened CashCover
  import opened Phases
  import opened Orders
  import opened Engine
  import opened Coupling
  import opened Pacing
  import opened Books
  import opened SubmitLaws
  import opened FillLaws
  import opened StepLaws
  import opened SignalLaws
  import opened MinuteLaws

  // ----- Winding down -----

  /** Only sells are working, and every position is being sold. */
  ghost predicate Winding(w: World, desk: Desk) {
    && (forall id :: id in w.pending ==> id.side.Sell?)
    && (forall s :: s in w.account.positions ==> s in desk)
  }

  lemma WindingBar(w: World, v: World, c: Ctx, desk: Desk, id: OrderId, bar: Bar, now: int)
    requires MetBar(w, v, c, desk, id, bar, now) && Touched(w.pending[id].intent, bar, now)
    requires Winding(w, desk)
    ensures Winding(v, desk - {id.symbol})
  {}

  /** What a bar leaves behind of one working order and of everything else. */
  ghost predicate BarDone(w: World, v: World, c: Ctx, desk: Desk, later: Desk, id: OrderId, bar: Bar, now: int) {
    && MetBar(w, v, c, desk, id, bar, now) && BarKeeps(w, v, c)
    && Steady(v, c, later, now) && (Winding(w, desk) ==> Winding(v, later))
  }

  /** All that the minute loop needs to know about a working order and its bar. */
  lemma OrderAndBar(w: World, c: Ctx, desk: Desk, id: OrderId, bar: Bar, now: int)
    requires Steady(w, c, desk, now) && id in w.pending && bar.Valid()
    requires now <= c.closeout && (now == c.closeout ==> w.pending[id].forced)
    ensures w.pending[id].intent.Valid()
    ensures var price := FillPrice(w.pending[id].intent, bar, now, Costs(c.scenario));
            price.Some? <==> Touched(w.pending[id].intent, bar, now)
    ensures var r := OnBar(w, c, id, bar, now);
            && r.Success?
            && BarDone(w, r.value, c, desk, if Touched(w.pending[id].intent, bar, now) then desk - {id.symbol} else desk,
                       id, bar, now)
  {
    OrderMeetsBar(w, c, desk, id, bar, now);
    FillPriceMeans(w.pending[id].intent, bar, now, c.scenario);
    if Winding(w, desk) && Touched(w.pending[id].intent, bar, now) {
      WindingBar(w, OnBar(w, c, id, bar, now).value, c, desk, id, bar, now);
    }
  }

  /** Nothing working and nothing held. */
  predicate Done(w: World) {
    w.pending == map[] && w.account.positions == map[]
  }

  /** No order is left, so everything has been sold. */
  lemma WoundUp(w: World, c: Ctx, desk: Desk)
    requires Coupled(w, c, desk) && Winding(w, desk) && w.pending == map[]
    ensures Done(w)
  {
    forall s ensures s !in w.account.positions {
      assert SymbolCoupled(w, c, desk, s);
    }
  }

  /** What being done says of everything else. */
  lemma DoneIsFlat(w: World, c: Ctx, desk: Desk)
    requires Coupled(w, c, desk) && Done(w)
    ensures w.account.reservations == map[] && w.openTrades == map[]
    ensures forall s :: State(w, c, s).phase.Flat? || State(w, c, s).phase.Cooldown?
    ensures forall s :: State(w, c, s).Valid()
  {
    forall s ensures s !in w.openTrades && State(w, c, s).Valid()
             ensures State(w, c, s).phase.Flat? || State(w, c, s).phase.Cooldown?
    {
      assert SymbolCoupled(w, c, desk, s);
    }
    assert forall id :: id !in w.account.reservations;
  }

  // ----- The forced sells -----

  /** A market sell that the closeout minute must fill. */
  predicate ForcedSell(id: OrderId, p: PendingOrder, c: Ctx) {
    id.side.Sell? && p.forced && p.intent.orderType.Market? && p.intent.eligibleTime == c.closeout
  }

  ghost predicate AllForced(pending: map<OrderId, PendingOrder>, c: Ctx) {
    forall id :: id in pending ==> ForcedSell(id, pending[id], c)
  }

  function CloseId(c: Ctx, s: Symbol): OrderId { OrderId(c.session, SessionClose, Sell, c.closeout - 1, s) }

  /** The forced market sell for the whole of one position works. */
  predicate SoldWhole(w: World, c: Ctx, s: Symbol) {
    && s in w.account.positions && CloseId(c, s) in w.pending
    && w.pending[CloseId(c, s)].intent ==
       Intent(CloseId(c, s), Market, w.account.positions[s].quantity, None, c.closeout)
  }

  /** Those are the working orders, one for every position outside `todo`. */
  ghost predicate SoldOff(w: World, c: Ctx, todo: set<Symbol>) {
    && (forall s :: s in w.account.positions && s !in todo ==> SoldWhole(w, c, s))
    && (forall id :: id in w.pending ==>
          id == CloseId(c, id.symbol) && id.symbol in w.account.positions && id.symbol !in todo)
  }

  lemma SoldOffMore(w: World, v: World, c: Ctx, s: Symbol, open: real, account: Account<Symbol, OrderId>,
                    todo: set<Symbol>)
    requires SoldOff(w, c, todo) && s in todo && s in w.account.positions
    requires v.account.positions == w.account.positions
    requires Accepted(w, v, c, CloseId(c, s), open, w.account.positions[s].quantity, true, account)
    ensures SoldOff(v, c, todo - {s})
  {}

  /** While the closeout goes through the positions: those in `todo` are long, the others sold. */
  ghost predicate Closing(w: World, c: Ctx, desk: Desk, todo: set<Symbol>) {
    && AllForced(w.pending, c) && SoldOff(w, c, todo)
    && (forall s :: s in todo ==> s in w.account.positions && State(w, c, s).phase.Long?)
    && (forall s :: s in w.account.positions && s !in todo ==> s in desk)
  }

  /** With no working order left, every position is long. */
  lemma ClosingStarts(w: World, c: Ctx, desk: Desk)
    requires Coupled(w, c, desk) && w.pending == map[]
    ensures Closing(w, c, desk, w.account.positions.Keys)
  {
    forall s | s in w.account.positions ensures State(w, c, s).phase.Long? {
      assert SymbolCoupled(w, c, desk, s);
    }
  }

  lemma ForcedAfter(w: World, v: World, c: Ctx, s: Symbol, open: real, quantity: int, account: Account<Symbol, OrderId>)
    requires Accepted(w, v, c, OrderId(c.session, SessionClose, Sell, c.closeout - 1, s), open, quantity, true, account)
    requires AllForced(w.pending, c)
    ensures AllForced(v.pending, c)
  {}

  lemma ClosingAfter(w: World, v: World, c: Ctx, desk: Desk, id: OrderId, open: real, quantity: int,
                     account: Account<Symbol, OrderId>, todo: set<Symbol>)
    requires Accepted(w, v, c, id, open, quantity, true, account) && v.account.positions == w.account.positions
    requires Closing(w, c, desk, todo) && AllForced(v.pending, c) && SoldOff(v, c, todo - {id.symbol})
    ensures Closing(v, c, desk[id.symbol := id], todo - {id.symbol})
  {}

  /** One position more is being sold off. */
  ghost predicate SoldOne(w: World, v: World, c: Ctx, later: Desk, now: int, s: Symbol, todo: set<Symbol>) {
    && Steady(v, c, later, now) && Closing(v, c, later, todo - {s})
    && AddsAtMost(w.intentKeys, v.intentKeys, c.session, CloseFamily, now, s)
    && KeepsCover(w, v) && Extends(w, v, now) && v.account.positions == w.account.positions
  }

  lemma ClosingStep(w: World, c: Ctx, desk: Desk, now: int, s: Symbol, open: real, todo: set<Symbol>)
    returns (later: Desk)
    requires Steady(w, c, desk, now) && Closing(w, c, desk, todo) && s in todo && open > 0.0 && now == c.closeout - 1
    requires Fresh(w.intentKeys, c.session, CloseFamily, now, todo)
    ensures s in w.account.positions && s in c.rules.symbols
    ensures var r := OnCloseout(w, c, now, s, open); r.Success? && SoldOne(w, r.value, c, later, now, s, todo)
  {
    assert SymbolCoupled(w, c, desk, s);
    later := OnCloseoutSteady(w, c, desk, now, s, open, todo);
    var v := OnCloseout(w, c, now, s, open).value;
    var quantity := w.account.positions[s].quantity;
    var account := WithOrder(w.account, CloseId(c, s), quantity, 0.0);
    ForcedAfter(w, v, c, s, open, quantity, account);
    SoldOffMore(w, v, c, s, open, account, todo);
    ClosingAfter(w, v, c, desk, CloseId(c, s), open, quantity, account, todo);
  }

  lemma ClosingEnds(w: World, c: Ctx, desk: Desk)
    requires Closing(w, c, desk, {})
    ensures Winding(w, desk) && SoldOff(w, c, {})
  {}

  // ----- Times of order ids -----

  /** At the start of minute `t`, every id of this session is older than the minute's ids. */
  predicate Older(id: OrderId, t: int, c: Ctx) {
    match FamilyOf(id.reason)
    case SignalFamily => id.signalTime < t
    case RiskFamily => id.signalTime < t + 1
    case CloseFamily => c.closeout <= t
  }

  ghost predicate Keyed(keys: set<OrderId>, c: Ctx, t: int) {
    forall id :: id in keys ==> id.session in c.past || (id.session == c.session && Older(id, t, c))
  }

  lemma KeyedBefore(keys: set<OrderId>, c: Ctx, t: int)
    requires Keyed(keys, c, t) && c.session !in c.past
    ensures Before(keys, c.session, SignalFamily, t) && Before(keys, c.session, RiskFamily, t + 1)
    ensures t < c.closeout ==> Before(keys, c.session, CloseFamily, t)
  {}

  lemma KeyedMinute(before: set<OrderId>, middle: set<OrderId>, after: set<OrderId>, c: Ctx, t: int)
    requires Keyed(before, c, t) && AddsOnly(before, middle, c.session, SignalFamily, t)
    requires AddsOnly(middle, after, c.session, RiskFamily, t + 1) ||
             (t == c.closeout - 1 && AddsOnly(middle, after, c.session, CloseFamily, t))
    ensures Keyed(after, c, t + 1)
  {}

  // ----- When the cover holds -----

  /** No working order is older than `t`. */
  ghost predicate Current(pending: map<OrderId, PendingOrder>, t: int) {
    forall id :: id in pending ==> id.signalTime >= t
  }

  ghost predicate NoBuys(pending: map<OrderId, PendingOrder>) {
    forall id :: id in pending ==> id.side.Sell?
  }

  /** A market order never outlives its first eligible minute. */
  lemma MarketOrderFills(w: World, c: Ctx, desk: Desk, id: OrderId, bar: Bar, now: int)
    requires Coupled(w, c, desk) && id in w.pending && c.rules.orderType.Market?
    ensures bar.Valid() && !Touched(w.pending[id].intent, bar, now) ==> id.signalTime >= now
  {
    OrderFacts(w, c, desk, id);
    assert TradedAt(bar, bar.low) == (bar.low <= bar.high);
  }

  /** Current orders, in a session whose signals are all older, are not buys. */
  lemma NothingToBuy(w: World, c: Ctx, desk: Desk, t: int)
    requires Coupled(w, c, desk) && Current(w.pending, t) && Before(w.intentKeys, c.session, SignalFamily, t)
    ensures NoBuys(w.pending)
  {
    forall id | id in w.pending ensures id.side.Sell? {
      OrderFacts(w, c, desk, id);
    }
  }

  lemma SnugWithoutBuys(w: World, c: Ctx, desk: Desk)
    requires Coupled(w, c, desk) && Inv(w.account) && NoBuys(w.pending)
    ensures Snug(w.account)
  {
    forall id | id in w.account.reservations ensures w.account.reservations[id].side.Sell? {
      OrderFacts(w, c, desk, id);
    }
    OnlySells(w.account.reservations);
  }

  // ----- Between sessions -----

  /** The trades so far, all from finished sessions. */
  ghost predicate PastTrades(trades: seq<Trade>, rules: Rules, scenario: Scenario, past: map<int, Window>) {
    && (forall i :: 0 <= i < |trades| ==>
          TradeOk(trades[i], scenario) && trades[i].session in past && Within(trades[i], past[trades[i].session]))
    && (forall i, j :: 0 <= i < j < |trades| ==> Apart(trades[i], trades[j], rules.cooldownMinutes))
    && (forall d :: d in past ==> SessionTrades(trades, d) <= rules.maxEntries)
  }

  ghost predicate PastRecords(w: World, past: map<int, Window>) {
    && (forall k :: k in w.states ==> k.session in past)
    && (forall id :: id in w.intentKeys ==> id.session in past)
  }

  /** Flat, with only finished sessions on record. */
  ghost predicate Idle(w: World, rules: Rules, scenario: Scenario, past: map<int, Window>) {
    && Inv(w.account) && BooksOk(w) && PairedOk(w)
    && Done(w) && w.account.reservations == map[] && w.openTrades == map[]
    && PastTrades(w.trades, rules, scenario, past) && PastRecords(w, past)
  }

  lemma {:induction false} NoTradesYet(trades: seq<Trade>, s: Symbol, session: int)
    requires forall i :: 0 <= i < |trades| ==> trades[i].session != session
    ensures TradesOf(trades, s, session) == 0
    decreases |trades|
  {
    if trades != [] {
      NoTradesYet(trades[..|trades| - 1], s, session);
    }
  }

  lemma NewSession(w: World, c: Ctx)
    requires Idle(w, c.rules, c.scenario, c.past) && c.rules.Valid() && c.session !in c.past
    ensures Steady(w, c, map[], c.opens) && Keyed(w.intentKeys, c, c.opens)
  {
    forall s ensures SymbolPaced(w, c, map[], s, c.opens) && State(w, c, s) == INITIAL {
      NoTradesYet(w.trades, s, c.session);
    }
    assert BuyOrders(w.pending) == {};
    assert TradesOk(w.trades, c);
    assert Coupled(w, c, map[]);
  }

  lemma EntriesAreTrades(w: World, c: Ctx, desk: Desk, s: Symbol, now: int)
    requires SymbolCoupled(w, c, desk, s) && SymbolPaced(w, c, desk, s, now) && s !in w.openTrades
    ensures TradesOf(w.trades, s, c.session) == FilledEntries(w, c, s)
  {}

  /** The finished session joins the past, within its entry cap. */
  lemma SessionEnds(w: World, c: Ctx, desk: Desk, now: int)
    requires Steady(w, c, desk, now) && Done(w)
    ensures PastTrades(w.trades, c.rules, c.scenario, c.past[c.session := Window(c.opens, c.closeout)])
  {
    DoneIsFlat(w, c, desk);
    forall s ensures TradesOf(w.trades, s, c.session) == FilledEntries(w, c, s) {
      assert SymbolCoupled(w, c, desk, s) && SymbolPaced(w, c, desk, s, now);
      EntriesAreTrades(w, c, desk, s, now);
    }
    assert SessionTrades(w.trades, c.session) <= c.rules.maxEntries;
  }

  lemma SessionIsOver(w: World, v: World, c: Ctx, desk: Desk, now: int)
    requires Steady(w, c, desk, now) && Keyed(w.intentKeys, c, now) && Done(w)
    requires v == w.(states := v.states) && SameSessions(w, v, c)
    ensures Idle(v, c.rules, c.scenario, c.past[c.session := Window(c.opens, c.closeout)])
  {
    DoneIsFlat(w, c, desk);
    SessionEnds(w, c, desk, now);
    StaysKnown(w, v, c);
    RecordsEnd(v, c, now);
  }

  lemma RecordsEnd(w: World, c: Ctx, t: int)
    requires Known(w, c) && Keyed(w.intentKeys, c, t)
    ensures PastRecords(w, c.past[c.session := Window(c.opens, c.closeout)])
  {}
}
