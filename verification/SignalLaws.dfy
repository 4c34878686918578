/** Signals.  While the cash covers the reservations, the only exceptions that can escape come from
    reference prices that are not positive. */
module SignalLaws {
  import opened Wrappers
  import opened Accounts
  import opened AccountLaws
  import opened CashCover
  import opened Phases
  import opened Orders
  import opened Engine
  import opened Coupling
  import opened Pacing
  import opened SubmitLaws
  import opened StepLaws
  import opened Decisions

  // ----- Order ids never repeat -----

  datatype Family = SignalFamily | RiskFamily | CloseFamily

  function FamilyOf(reason: Reason): Family {
    match reason
    case EntrySignal | ExitSignal => SignalFamily
    case StopLoss | TakeProfit | MaxHolding => RiskFamily
    case SessionClose => CloseFamily
  }

  /** In this session no id of family `f` carries a time after `t`, nor the time `t` for a symbol
      still to come. */
  ghost predicate Fresh(keys: set<OrderId>, session: int, f: Family, t: int, todo: set<Symbol>) {
    forall k :: k in keys && k.session == session && FamilyOf(k.reason) == f ==>
      k.signalTime < t || (k.signalTime == t && k.symbol !in todo)
  }

  /** A step at symbol `s` adds at most one id, of family `f` and time `t`. */
  ghost predicate AddsAtMost(before: set<OrderId>, after: set<OrderId>, session: int, f: Family, t: int, s: Symbol) {
    forall k :: k in after ==>
      k in before || (k.session == session && FamilyOf(k.reason) == f && k.signalTime == t && k.symbol == s)
  }

  lemma AddsOne(before: set<OrderId>, id: OrderId)
    ensures AddsAtMost(before, before + {id}, id.session, FamilyOf(id.reason), id.signalTime, id.symbol)
  {}

  lemma FreshAfter(before: set<OrderId>, after: set<OrderId>, session: int, f: Family, t: int, s: Symbol,
                   todo: set<Symbol>)
    requires AddsAtMost(before, after, session, f, t, s) && s in todo
    requires Fresh(before, session, f, t, todo)
    ensures Fresh(after, session, f, t, todo - {s})
    ensures forall less: set<Symbol> :: less <= todo && s !in less ==> Fresh(after, session, f, t, less)
  {}

  /** A stretch of the run adds only ids of family `f` and time `t`. */
  ghost predicate AddsOnly(before: set<OrderId>, after: set<OrderId>, session: int, f: Family, t: int) {
    forall k :: k in after ==> k in before || (k.session == session && FamilyOf(k.reason) == f && k.signalTime == t)
  }

  /** No id of family `f` in this session has time `t` or later. */
  ghost predicate Before(keys: set<OrderId>, session: int, f: Family, t: int) {
    forall k :: k in keys && k.session == session && FamilyOf(k.reason) == f ==> k.signalTime < t
  }

  lemma BeforeIsFresh(keys: set<OrderId>, session: int, f: Family, t: int, todo: set<Symbol>)
    requires Before(keys, session, f, t)
    ensures Fresh(keys, session, f, t, todo)
  {}

  lemma AddsOnlyStep(start: set<OrderId>, before: set<OrderId>, after: set<OrderId>, session: int, f: Family, t: int,
                     s: Symbol)
    requires AddsOnly(start, before, session, f, t) && AddsAtMost(before, after, session, f, t, s)
    ensures AddsOnly(start, after, session, f, t)
  {}

  // ----- Entry quantity -----

  lemma FloorBounds(x: real, q: int)
    requires q <= x.Floor
    ensures q as real <= x
  {}

  lemma DivisionBound(x: real, y: real, z: real)
    requires y > 0.0 && x <= z / y
    ensures x * y <= z
  {
    assert z / y * y == z;
    assert x * y <= z / y * y;
  }

  lemma ShareBound(available: real, slots: int)
    requires available >= 0.0 && slots >= 1
    ensures 0.0 <= available / slots as real <= available
  {
    var share := available / slots as real;
    assert share * slots as real == available;
    assert share * (slots - 1) as real >= 0.0;
  }

  lemma CashQuantityAffordable(available: real, slots: int, adverse: real, q: int)
    requires available >= 0.0 && slots >= 1 && adverse > 0.0 && q <= CashQuantity(available, slots, adverse)
    ensures Paid(q, adverse, 0.0) <= available / slots as real <= available
  {
    ShareBound(available, slots);
    FloorBounds(available / slots as real / adverse, q);
    DivisionBound(q as real, adverse, available / slots as real);
  }

  lemma NothingAtNegativePrice(available: real, slots: int, adverse: real)
    requires available >= 0.0 && slots >= 1 && adverse < 0.0
    ensures CashQuantity(available, slots, adverse) <= 0
  {
    ShareBound(available, slots);
    var share := available / slots as real;
    assert share / adverse * adverse == share;
    assert share / adverse <= 0.0;
  }

  /** A quantity the engine would submit can be paid for out of the available cash, so the
      reservation cannot be refused; sizing fails exactly when the cover is gone or the reference
      price is zero, and a negative price buys nothing. */
  lemma EntryQuantityAffordable(a: Account<Symbol, OrderId>, c: Ctx, price: real)
    requires c.rules.Valid()
    ensures var r := EntryQuantity(a, c, price);
            && (!Covered(a) ==> r == Failure(AccountCrash(NegativeResidual)))
            && (Covered(a) && price == 0.0 ==> r == Failure(DivisionByZero))
            && (Covered(a) && price != 0.0 ==> r.Success?)
            && (r.Success? && r.value > 0 ==>
                  && price > 0.0
                  && Paid(r.value, Adverse(price, Buy, Costs(c.scenario)), 0.0) <=
                     AvailableCash(a).value / FreeSlots(a) as real <= AvailableCash(a).value)
  {
    var r := EntryQuantity(a, c, price);
    if r.Success? {
      AdverseNonZero(price, Buy, c.scenario);
      if price < 0.0 {
        NothingAtNegativePrice(AvailableCash(a).value, FreeSlots(a), Adverse(price, Buy, Costs(c.scenario)));
      } else if r.value > 0 {
        CashQuantityAffordable(AvailableCash(a).value, FreeSlots(a), Adverse(price, Buy, Costs(c.scenario)), r.value);
      }
    }
  }

  lemma FloorIsLargest(x: real, y: real, n: int)
    requires y > 0.0
    ensures n <= (x / y).Floor <==> n as real * y <= x
  {
    assert x / y * y == x;
    if n as real <= x / y {
      assert n as real * y <= x / y * y;
    } else {
      assert n as real * y > x / y * y;
    }
  }

  /** The quantity is the largest one that its share of the cash pays for and, when sizing by risk,
      that loses no more than the risk budget at the stop. */
  lemma EntryQuantityIsLargest(a: Account<Symbol, OrderId>, c: Ctx, price: real, n: int)
    requires price > 0.0 && c.rules.Valid() && EntryQuantity(a, c, price).Success? && n > 0
    ensures n <= EntryQuantity(a, c, price).value <==>
            && Paid(n, Adverse(price, Buy, Costs(c.scenario)), 0.0) <= AvailableCash(a).value / FreeSlots(a) as real
            && (c.rules.sizing.EqualRisk? ==> AtRisk(n, price, c.rules.stopLossBps) <= Equity(a) * RISK_BUDGET_FRACTION)
  {
    AdversePositive(price, Buy, c.scenario);
    CashIsLargest(AvailableCash(a).value, FreeSlots(a), Adverse(price, Buy, Costs(c.scenario)), n);
    RiskIsLargest(Equity(a), price, c.rules.stopLossBps, n);
  }

  /** The quantity in terms of what fits: nothing when not even one share does, else the greatest. */
  lemma QuantityMeans(w: World, c: Ctx, desk: Desk, price: real)
    requires Coupled(w, c, desk) && c.rules.Valid() && Covered(w.account) && price != 0.0
    ensures var r := EntryQuantity(w.account, c, price);
            && r.Success?
            && (price > 0.0 && Fits(w, c, price, 1) ==> Largest(w, c, price, r.value))
            && (!(price > 0.0 && Fits(w, c, price, 1)) ==> r.value <= 0)
  {
    EntryQuantityAffordable(w.account, c, price);
    PlacesAreSlots(w, c, desk);
    var q := EntryQuantity(w.account, c, price).value;
    if price > 0.0 {
      forall n | n > 0 ensures n <= q <==> Fits(w, c, price, n) {
        EntryQuantityIsLargest(w.account, c, price, n);
      }
    }
  }

  lemma CashIsLargest(available: real, slots: int, adverse: real, n: int)
    requires slots >= 1 && adverse > 0.0
    ensures n <= CashQuantity(available, slots, adverse) <==> Paid(n, adverse, 0.0) <= available / slots as real
  {
    FloorIsLargest(available / slots as real, adverse, n);
  }

  lemma RiskIsLargest(equity: real, price: real, stopLossBps: int, n: int)
    requires price > 0.0 && stopLossBps > 0
    ensures n <= RiskQuantity(equity, price, stopLossBps) <==>
            AtRisk(n, price, stopLossBps) <= equity * RISK_BUDGET_FRACTION
  {
    FloorIsLargest(equity * RISK_BUDGET_FRACTION, price * stopLossBps as real / 10000.0, n);
  }

  // ----- A cooldown that has run out -----

  lemma RestedShape(w: World, c: Ctx, desk: Desk, s: Symbol, now: int)
    requires SymbolCoupled(w, c, desk, s) && SymbolPaced(w, c, desk, s, now)
    ensures var r := Rested(State(w, c, s), now);
            && r.Success?
            && (r.value == State(w, c, s) ||
                (State(w, c, s).phase.Cooldown? && State(w, c, s).cooldownUntil.Some? &&
                 State(w, c, s).cooldownUntil.value <= now &&
                 r.value == State(w, c, s).(phase := Flat, openedAt := None, cooldownUntil := None)))
  {}

  /** `v` is `w` with symbol `s` released from its cooldown. */
  ghost predicate CooledDown(w: World, v: World, c: Ctx, s: Symbol, now: int) {
    && State(w, c, s).phase.Cooldown?
    && State(w, c, s).cooldownUntil.Some? && State(w, c, s).cooldownUntil.value <= now
    && v == Put(w, c, s, State(w, c, s).(phase := Flat, openedAt := None, cooldownUntil := None))
  }

  // ----- A new state for one symbol, nothing else -----

  lemma RestatedCoupled(w: World, v: World, c: Ctx, desk: Desk, s: Symbol, state: RuntimeState)
    requires Coupled(w, c, desk) && v == Put(w, c, s, state) && SymbolCoupled(v, c, desk, s)
    ensures Coupled(v, c, desk)
  {
    forall x ensures SymbolCoupled(v, c, desk, x) {
      assert SymbolCoupled(w, c, desk, x);
      if x != s {
        SameStaysCoupled(w, v, c, desk, desk, x);
      }
    }
  }

  lemma RestatedPaced(w: World, v: World, c: Ctx, desk: Desk, s: Symbol, state: RuntimeState, now: int)
    requires Paced(w, c, desk, now) && v == Put(w, c, s, state) && SymbolPaced(v, c, desk, s, now)
    ensures Paced(v, c, desk, now)
  {
    forall x ensures SymbolPaced(v, c, desk, x, now) {
      assert SymbolPaced(w, c, desk, x, now);
      if x != s {
        SameStaysPaced(w, v, c, desk, desk, x, now);
      }
    }
  }

  lemma RestatedSlots(w: World, v: World, c: Ctx, s: Symbol, state: RuntimeState)
    requires v == Put(w, c, s, state) && state.entries == State(w, c, s).entries
    ensures SlotsUsed(v, c) == SlotsUsed(w, c)
  {
    assert forall x :: FilledEntries(v, c, x) == FilledEntries(w, c, x);
  }

  lemma RestatedSteady(w: World, v: World, c: Ctx, desk: Desk, s: Symbol, state: RuntimeState, now: int)
    requires Steady(w, c, desk, now) && v == Put(w, c, s, state) && state.entries == State(w, c, s).entries
    requires SymbolCoupled(v, c, desk, s) && SymbolPaced(v, c, desk, s, now)
    ensures Steady(v, c, desk, now)
  {
    RestatedCoupled(w, v, c, desk, s, state);
    RestatedPaced(w, v, c, desk, s, state, now);
    RestatedSlots(w, v, c, s, state);
    StaysKnown(w, v, c);
  }

  lemma CooledDownOwn(w: World, v: World, c: Ctx, desk: Desk, s: Symbol, now: int)
    requires SymbolCoupled(w, c, desk, s) && SymbolPaced(w, c, desk, s, now) && CooledDown(w, v, c, s, now)
    ensures SymbolCoupled(v, c, desk, s) && SymbolPaced(v, c, desk, s, now)
  {}

  lemma CooledDownSteady(w: World, v: World, c: Ctx, desk: Desk, s: Symbol, now: int)
    requires Steady(w, c, desk, now) && CooledDown(w, v, c, s, now)
    ensures Steady(v, c, desk, now)
  {
    assert SymbolCoupled(w, c, desk, s) && SymbolPaced(w, c, desk, s, now);
    CooledDownOwn(w, v, c, desk, s, now);
    RestatedSteady(w, v, c, desk, s, State(v, c, s), now);
  }

  /** The world in which the signal is judged. */
  lemma RestedWorld(w: World, c: Ctx, desk: Desk, s: Symbol, now: int) returns (v: World)
    requires Steady(w, c, desk, now)
    ensures var r := Rested(State(w, c, s), now);
            && r.Success? && r.value == State(v, c, s)
            && v == (if r.value == State(w, c, s) then w else Put(w, c, s, r.value))
    ensures v == w || CooledDown(w, v, c, s, now)
    ensures Steady(v, c, desk, now) && (State(v, c, s).phase.Cooldown? ==> CooldownActive(State(v, c, s), now))
  {
    assert SymbolCoupled(w, c, desk, s) && SymbolPaced(w, c, desk, s, now);
    RestedShape(w, c, desk, s, now);
    var r := Rested(State(w, c, s), now).value;
    if r == State(w, c, s) {
      v := w;
    } else {
      v := Put(w, c, s, r);
      CooledDownSteady(w, v, c, desk, s, now);
    }
  }

  // ----- Cover of the working buys -----

  /** Orders that appear are no older than `now`. */
  ghost predicate Extends(w: World, v: World, now: int) {
    forall id :: id in v.pending ==> id in w.pending || id.signalTime >= now
  }

  /** What a step other than an entry or the fill of a market buy does to the cover. */
  ghost predicate KeepsCover(w: World, v: World) {
    (Snug(w.account) ==> Snug(v.account)) && KeepsIntents(w, v)
  }

  /** Intents on record stay on record. */
  ghost predicate KeepsIntents(w: World, v: World) {
    v.intents == [] ==> w.intents == []
  }

  /** What the bars of a minute do to the cover: a market buy may cost more than it reserved. */
  ghost predicate BarKeeps(w: World, v: World, c: Ctx) {
    (c.rules.orderType.Limit? ==> KeepsCover(w, v)) && KeepsIntents(w, v)
  }

  /** What a signal does to the cover. */
  ghost predicate SignalKeeps(w: World, v: World) {
    KeepsCover(w, v) && (Covered(w.account) ==> Covered(v.account))
  }

  // ----- Signals -----

  lemma EntryKeeps(w: World, c: Ctx, desk: Desk, now: int, s: Symbol, price: real, quantity: int)
    requires Steady(w, c, desk, now) && s !in desk && s !in w.account.positions
    requires EntryQuantity(w.account, c, price) == Success(quantity) && quantity > 0
    ensures var id := OrderId(c.session, EntrySignal, Buy, now, s);
            var estimate := Adverse(price, Buy, Costs(c.scenario));
            SignalKeeps(w, w.(account := WithOrder(w.account, id, quantity, Paid(quantity, estimate, 0.0))))
  {
    var id := OrderId(c.session, EntrySignal, Buy, now, s);
    var estimate := Adverse(price, Buy, Costs(c.scenario));
    EntryQuantityAffordable(w.account, c, price);
    AdversePositive(price, Buy, c.scenario);
    BuyIsReserved(w, c, desk, id, quantity, estimate);
    ReserveKeepsCover(w.account, id, s, Buy, quantity, estimate, 0.0);
    if Snug(w.account) {
      ReserveKeepsSnug(w.account, id, s, Buy, quantity, estimate);
    }
  }

  lemma ExitKeeps(w: World, c: Ctx, desk: Desk, id: OrderId, price: real, quantity: int)
    requires Coupled(w, c, desk) && Inv(w.account) && id.side.Sell? && id.symbol !in desk && price > 0.0
    requires id.symbol in w.account.positions && quantity == w.account.positions[id.symbol].quantity
    ensures SignalKeeps(w, w.(account := WithOrder(w.account, id, quantity, 0.0)))
  {
    var estimate := Adverse(price, Sell, Costs(c.scenario));
    AdversePositive(price, Sell, c.scenario);
    SellIsReserved(w, c, desk, id, quantity, estimate);
    if Covered(w.account) {
      ReserveKeepsCover(w.account, id, id.symbol, Sell, quantity, estimate, 0.0);
    }
    if Snug(w.account) {
      ReserveKeepsSnug(w.account, id, id.symbol, Sell, quantity, estimate);
    }
  }

  lemma AcceptedIsPlaced(w: World, v: World, c: Ctx, id: OrderId, price: real, quantity: int, cash: real)
    requires Accepted(w, v, c, id, price, quantity, false, WithOrder(w.account, id, quantity, cash)) && id !in w.pending
    requires cash == if id.side.Buy? then Paid(quantity, Adverse(price, Buy, Costs(c.scenario)), 0.0) else 0.0
    ensures Placed(w, v, c, id, price, quantity)
  {}

  lemma EntrySteady(w: World, c: Ctx, desk: Desk, now: int, s: Symbol, price: real, quantity: int) returns (later: Desk)
    requires Steady(w, c, desk, now) && s in c.rules.symbols && c.opens <= now
    requires State(w, c, s).phase.Flat? && SlotsUsed(w, c) < c.rules.maxEntries
    requires OrderId(c.session, EntrySignal, Buy, now, s) !in w.intentKeys
    requires EntryQuantity(w.account, c, price) == Success(quantity) && quantity > 0
    ensures var id := OrderId(c.session, EntrySignal, Buy, now, s);
            var r := Submit(w, c, id, price, quantity, false);
            && r.Success? && Steady(r.value, c, later, now)
            && AddsAtMost(w.intentKeys, r.value.intentKeys, c.session, SignalFamily, now, s)
            && SignalKeeps(w, r.value) && Extends(w, r.value, now)
            && Placed(w, r.value, c, id, price, quantity)
  {
    var id := OrderId(c.session, EntrySignal, Buy, now, s);
    assert SymbolCoupled(w, c, desk, s);
    EntryQuantityAffordable(w.account, c, price);
    SubmitBuySteady(w, c, desk, id, price, quantity, now);
    AddsOne(w.intentKeys, id);
    later := desk[s := id];
    EntryKeeps(w, c, desk, now, s, price, quantity);
    AcceptedIsPlaced(w, Submit(w, c, id, price, quantity, false).value, c, id, price, quantity,
                     Paid(quantity, Adverse(price, Buy, Costs(c.scenario)), 0.0));
  }

  lemma ExitSteady(w: World, c: Ctx, desk: Desk, now: int, id: OrderId, price: real, forced: bool) returns (later: Desk)
    requires Steady(w, c, desk, now) && id.symbol in c.rules.symbols && price > 0.0
    requires State(w, c, id.symbol).phase.Long? && id !in w.intentKeys
    requires id.session == c.session && id.side.Sell? && now <= id.signalTime
    requires (forced <==> id.reason.SessionClose?) && (forced ==> id.signalTime == c.closeout - 1)
    ensures id.symbol in w.account.positions && later == desk[id.symbol := id]
    ensures var r := Submit(w, c, id, price, w.account.positions[id.symbol].quantity, forced);
            && r.Success? && Steady(r.value, c, later, now)
            && AddsAtMost(w.intentKeys, r.value.intentKeys, c.session, FamilyOf(id.reason), id.signalTime, id.symbol)
            && SignalKeeps(w, r.value)
            && r.value.trades == w.trades && r.value.account.positions == w.account.positions
            && Accepted(w, r.value, c, id, price, w.account.positions[id.symbol].quantity, forced,
                        WithOrder(w.account, id, w.account.positions[id.symbol].quantity, 0.0))
            && Extends(w, r.value, now) && id !in w.pending
  {
    assert SymbolCoupled(w, c, desk, id.symbol);
    var quantity := w.account.positions[id.symbol].quantity;
    SubmitSellSteady(w, c, desk, id, price, quantity, forced, now);
    AddsOne(w.intentKeys, id);
    later := desk[id.symbol := id];
    ExitKeeps(w, c, desk, id, price, quantity);
  }

  /** `v` is `w` with another last signal at symbol `s`. */
  ghost predicate OnlySignalled(w: World, v: World, c: Ctx, s: Symbol, signal: Signal, at: int) {
    && s in c.rules.symbols
    && v == Put(w, c, s, State(w, c, s).(lastSignal := Some(signal), lastSignalAt := Some(at)))
  }

  lemma OnlySignalledOwn(w: World, v: World, c: Ctx, desk: Desk, s: Symbol, signal: Signal, at: int, now: int)
    requires SymbolCoupled(w, c, desk, s) && SymbolPaced(w, c, desk, s, now) && OnlySignalled(w, v, c, s, signal, at)
    ensures SymbolCoupled(v, c, desk, s) && SymbolPaced(v, c, desk, s, now)
  {
    if s in desk {
      assert v.pending == w.pending && v.account == w.account;
    }
  }

  lemma OnlySignalledSteady(w: World, v: World, c: Ctx, desk: Desk, s: Symbol, signal: Signal, at: int, now: int)
    requires Steady(w, c, desk, now) && OnlySignalled(w, v, c, s, signal, at)
    ensures Steady(v, c, desk, now)
  {
    assert SymbolCoupled(w, c, desk, s) && SymbolPaced(w, c, desk, s, now);
    OnlySignalledOwn(w, v, c, desk, s, signal, at, now);
    RestatedSteady(w, v, c, desk, s, State(v, c, s), now);
  }

  /** A sell signal at a price that is not positive: the intent of a limit order is invalid, and a
      market order is turned away by the portfolio, which leaves the symbol long. */
  lemma ExitTurnedAway(w: World, c: Ctx, id: OrderId, price: real, quantity: int)
    requires price <= 0.0 && quantity > 0 && id.side.Sell? && id !in w.intentKeys
    requires State(w, c, id.symbol).Valid() && State(w, c, id.symbol).phase.Long?
    ensures var r := Submit(w, c, id, price, quantity, false);
            if c.rules.orderType.Limit? then r == Failure(InvalidIntent)
            else r == Success(Put(w, c, id.symbol, State(w, c, id.symbol).(lastSignal := Some(ExitLong),
                                                                             lastSignalAt := Some(id.signalTime))))
  {
    AdverseNotPositive(price, id.side, c.scenario);
  }

  /** What a row that does not raise leaves behind. */
  ghost predicate RowDone(w: World, v: World, c: Ctx, later: Desk, now: int, s: Symbol) {
    && Steady(v, c, later, now)
    && AddsAtMost(w.intentKeys, v.intentKeys, c.session, SignalFamily, now, s)
    && Extends(w, v, now) && SignalKeeps(w, v)
  }

  /** The step of a row raises exactly when `RowCrash` says; else it places what the row decides and
      keeps everything. */
  ghost predicate AsRow(r: Step, w: World, c: Ctx, later: Desk, now: int, s: Symbol, price: real, enters: bool,
                        exits: bool) {
    match RowCrash(w, c, now, s, price, enters, exits)
    case Some(e) => r == Failure(e)
    case None =>
      && r.Success? && RowDone(w, r.value, c, later, now, s)
      && RowEffect(w, r.value, c, now, s, price, enters, exits)
  }

  lemma EntryJudged(w: World, c: Ctx, desk: Desk, now: int, s: Symbol, price: real) returns (later: Desk)
    requires Steady(w, c, desk, now) && s in c.rules.symbols && c.opens <= now && Covered(w.account) && price != 0.0
    requires State(w, c, s).phase.Flat? && SlotsUsed(w, c) < c.rules.maxEntries
    requires OrderId(c.session, EntrySignal, Buy, now, s) !in w.intentKeys
    requires Free(w, c, s, now) && Entries(w, c) < c.rules.maxEntries && !Resting(w, s)
    ensures var r := Judged(w, c, now, s, price, true, false);
            r.Success? && RowDone(w, r.value, c, later, now, s) && RowEffect(w, r.value, c, now, s, price, true, false)
  {
    later := desk;
    QuantityMeans(w, c, desk, price);
    var quantity := EntryQuantity(w.account, c, price).value;
    if quantity > 0 {
      later := EntrySteady(w, c, desk, now, s, price, quantity);
      assert Largest(w, c, price, quantity);
    }
  }

  lemma ExitJudged(w: World, c: Ctx, desk: Desk, now: int, s: Symbol, price: real) returns (later: Desk)
    requires Steady(w, c, desk, now) && s in c.rules.symbols && State(w, c, s).phase.Long?
    requires OrderId(c.session, ExitSignal, Sell, now, s) !in w.intentKeys
    ensures s in w.account.positions
    ensures var id := OrderId(c.session, ExitSignal, Sell, now, s);
            var r := Submit(w, c, id, price, w.account.positions[s].quantity, false);
            if c.rules.orderType.Limit? && price <= 0.0 then r == Failure(InvalidIntent)
            else
              && r.Success? && RowDone(w, r.value, c, later, now, s)
              && (if price > 0.0 then Placed(w, r.value, c, id, price, w.account.positions[s].quantity)
                  else NothingPlaced(w, r.value))
  {
    assert SymbolCoupled(w, c, desk, s);
    var id := OrderId(c.session, ExitSignal, Sell, now, s);
    var quantity := w.account.positions[s].quantity;
    later := desk;
    if price > 0.0 {
      later := ExitSteady(w, c, desk, now, id, price, false);
      AcceptedIsPlaced(w, Submit(w, c, id, price, quantity, false).value, c, id, price, quantity, 0.0);
    } else {
      ExitTurnedAway(w, c, id, price, quantity);
      if c.rules.orderType.Market? {
        OnlySignalledSteady(w, Submit(w, c, id, price, quantity, false).value, c, desk, s, ExitLong, now, now);
      }
    }
  }

  lemma RowRests(w: World, c: Ctx, desk: Desk, now: int, s: Symbol)
    requires Steady(w, c, desk, now)
    ensures RowDone(w, w, c, desk, now, s) && NothingPlaced(w, w)
  {}

  /** The row is judged in a world in which a cooldown that is over has ended. */
  lemma JudgedSteady(w: World, c: Ctx, desk: Desk, now: int, s: Symbol, price: real, enters: bool, exits: bool)
    returns (later: Desk)
    requires Steady(w, c, desk, now) && s in c.rules.symbols && c.opens <= now && Covered(w.account)
    requires State(w, c, s).phase.Cooldown? ==> CooldownActive(State(w, c, s), now)
    requires OrderId(c.session, EntrySignal, Buy, now, s) !in w.intentKeys
    requires OrderId(c.session, ExitSignal, Sell, now, s) !in w.intentKeys
    ensures AsRow(Judged(w, c, now, s, price, enters, exits), w, c, later, now, s, price, enters, exits)
  {
    later := desk;
    PhaseMeans(w, c, desk, s, now);
    EntriesAreSlots(w, c, desk, now);
    RowRests(w, c, desk, now, s);
    if MayEnter(w, c, now, s, enters) {
      if price == 0.0 {
        EntryQuantityAffordable(w.account, c, price);
      } else {
        later := EntryJudged(w, c, desk, now, s, price);
      }
    } else if Resting(w, s) && exits {
      later := ExitJudged(w, c, desk, now, s, price);
    }
  }

  /** A feature row of a traded symbol, whatever the two rules say and whatever its price: exactly
      when the step raises, what it places when it does not, and what it keeps. */
  lemma OnSignalSteady(w: World, c: Ctx, desk: Desk, now: int, s: Symbol, price: real, enters: bool, exits: bool,
                       todo: set<Symbol>) returns (later: Desk)
    requires Steady(w, c, desk, now) && s in c.rules.symbols && c.opens <= now && Covered(w.account)
    requires Fresh(w.intentKeys, c.session, SignalFamily, now, todo) && s in todo
    ensures AsRow(OnSignal(w, c, now, s, price, enters, exits), w, c, later, now, s, price, enters, exits)
  {
    var v := RestedWorld(w, c, desk, s, now);
    RestedSame(w, v, c, s, now);
    later := JudgedSteady(v, c, desk, now, s, price, enters, exits);
    SameRow(Judged(v, c, now, s, price, enters, exits), w, v, c, later, now, s, price, enters, exits);
  }

  lemma SameRow(r: Step, w: World, v: World, c: Ctx, later: Desk, now: int, s: Symbol, price: real, enters: bool,
                exits: bool)
    requires AsRow(r, v, c, later, now, s, price, enters, exits) && v == w.(states := v.states)
    ensures AsRow(r, w, c, later, now, s, price, enters, exits)
  {
    SameChances(w, v, c, now, s);
    if r.Success? {
      SameDone(w, v, r.value, c, later, now, s);
      SameEffect(w, v, r.value, c, now, s, price, enters, exits);
    }
  }

  lemma SameDone(w: World, v: World, after: World, c: Ctx, later: Desk, now: int, s: Symbol)
    requires v == w.(states := v.states)
    ensures RowDone(v, after, c, later, now, s) == RowDone(w, after, c, later, now, s)
  {}

  lemma RestedSame(w: World, v: World, c: Ctx, s: Symbol, now: int)
    requires v == w || CooledDown(w, v, c, s, now)
    ensures v == w.(states := v.states)
  {}

  /** A reference price at which a row could raise. */
  predicate Mispriced(rules: Rules, price: real, enters: bool, exits: bool) {
    (enters && price == 0.0) || (exits && rules.orderType.Limit? && price <= 0.0)
  }

  /** The two exceptions are real: the first row of a run that enters at a close of zero ends it. */
  lemma ZeroCloseRaises(initialCash: real, c: Ctx, now: int, s: Symbol, exits: bool)
    requires initialCash > 0.0 && c.rules.Valid() && s in c.rules.symbols
    ensures var w := World(Open(initialCash, MAX_POSITIONS), map[], map[], map[], [], {}, []);
            OnSignal(w, c, now, s, 0.0, true, exits) == Failure(DivisionByZero)
  {
    var w := World(Open(initialCash, MAX_POSITIONS), map[], map[], map[], [], {}, []);
    assert BuyOrders(w.pending) == {};
    assert State(w, c, s) == INITIAL;
  }
}
