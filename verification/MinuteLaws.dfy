/** Risk exits, the closeout, cancelled orders, marks and the two ends of a session. */
module MinuteLaws {
  import opened Wrappers
  import opened Accounts
  import opened AccountLaws
  import opened CashCover
  import opened Phases
  import opened Orders
  import opened Engine
  import opened Coupling
  import opened Pacing
  import opened Books
  import opened SubmitLaws
  import opened FillLaws
  import opened StepLaws
  import opened Decisions
  import opened SignalLaws

  // ----- Bars -----

  lemma OnBarSnug(w: World, c: Ctx, desk: Desk, id: OrderId, bar: Bar, now: int, price: real)
    requires Coupled(w, c, desk) && Inv(w.account) && id in w.pending && price > 0.0
    requires id.side.Buy? ==> c.rules.orderType.Limit? && w.pending[id].intent.limitPrice == Some(price)
    ensures var r := FilledAt(w, c, id, bar, now, price); r.Success? ==> KeepsCover(w, r.value)
  {
    OrderFacts(w, c, desk, id);
    NoFees(w.pending[id].intent.quantity, c.scenario);
    if Snug(w.account) {
      FillKeepsSnug(w.account, id, price, ExitReasonOf(id));
      CancelKeepsSnug(w.account, id);
    }
  }

  /** `OnBarSteady` for the cover. */
  lemma OnBarCover(w: World, c: Ctx, desk: Desk, id: OrderId, bar: Bar, now: int)
    requires Coupled(w, c, desk) && Inv(w.account) && id in w.pending && bar.Valid()
    requires w.pending[id].intent.Valid() && c.rules.orderType.Limit?
    ensures var r := OnBar(w, c, id, bar, now); r.Success? ==> KeepsCover(w, r.value)
  {
    OrderFacts(w, c, desk, id);
    FillPricePositive(w.pending[id].intent, bar, now, c.scenario);
    var price := FillPrice(w.pending[id].intent, bar, now, Costs(c.scenario));
    if price.Some? {
      OnBarSnug(w, c, desk, id, bar, now, price.value);
    }
  }

  /** What a bar does to one working order: nothing, or the fill at its price. */
  ghost predicate MetBar(w: World, v: World, c: Ctx, desk: Desk, id: OrderId, bar: Bar, now: int) {
    && id in w.pending
    && v.intentKeys == w.intentKeys
    && if Touched(w.pending[id].intent, bar, now) then
         && FillOutcome(w, v, c, id, now, PriceOf(w.pending[id].intent, bar, c.scenario))
         && Steady(v, c, desk - {id.symbol}, now) && v.pending == w.pending - {id}
       else v == w
  }

  /** All that the minute loop needs to know about an order meeting its bar. */
  lemma OrderMeetsBar(w: World, c: Ctx, desk: Desk, id: OrderId, bar: Bar, now: int)
    requires Steady(w, c, desk, now) && id in w.pending && bar.Valid()
    requires now <= c.closeout && (now == c.closeout ==> w.pending[id].forced)
    ensures w.pending[id].intent.Valid()
    ensures var r := OnBar(w, c, id, bar, now);
            r.Success? && MetBar(w, r.value, c, desk, id, bar, now) && BarKeeps(w, r.value, c)
  {
    OnBarSteady(w, c, desk, id, bar, now);
    if c.rules.orderType.Limit? {
      OnBarCover(w, c, desk, id, bar, now);
    }
  }

  // ----- Cancelling -----

  /** Order `id` is cancelled and nothing else about orders or positions changed. */
  ghost predicate OneDropped(w: World, v: World, c: Ctx, later: Desk, id: OrderId, now: int) {
    && Steady(v, c, later, now) && KeepsCover(w, v)
    && v.intentKeys == w.intentKeys && v.pending == w.pending - {id} && v.account.positions == w.account.positions
  }

  lemma DroppedSteady(w: World, c: Ctx, desk: Desk, id: OrderId, now: int)
    requires Steady(w, c, desk, now) && id in w.pending
    ensures var r := Dropped(w, c, id);
            && r.Success? && IsDropped(w, r.value, c, id)
            && OneDropped(w, r.value, c, desk - {id.symbol}, id, now)
            && id.symbol in desk && desk[id.symbol] == id
  {
    OrderFacts(w, c, desk, id);
    DroppedShape(w, c, desk, id);
    var v := Dropped(w, c, id).value;
    ResolvedCoupled(w, v, c, desk, id, now, 0.0);
    ResolvedPaced(w, v, c, desk, id, now, 0.0);
    ResolvedBooks(w, v, c, desk, id, now, 0.0);
    FilledSlots(w, v, c, id, now, 0.0);
    if Snug(w.account) {
      CancelKeepsSnug(w.account, id);
    }
  }

  // ----- Marking -----

  ghost predicate IsMarked(w: World, v: World, s: Symbol, close: real) {
    && s in w.account.positions
    && var marked := w.account.positions[s].(marketPrice := close);
       v == w.(account := w.account.(positions := w.account.positions[s := marked]))
  }

  lemma MarkedCoupled(w: World, v: World, c: Ctx, desk: Desk, s: Symbol, close: real)
    requires Coupled(w, c, desk) && IsMarked(w, v, s, close)
    ensures Coupled(v, c, desk)
  {
    forall x ensures SymbolCoupled(v, c, desk, x) {
      assert SymbolCoupled(w, c, desk, x);
      if x != s {
        SameStaysCoupled(w, v, c, desk, desk, x);
      }
    }
  }

  lemma MarkedPaced(w: World, v: World, c: Ctx, desk: Desk, s: Symbol, close: real, now: int)
    requires Paced(w, c, desk, now) && IsMarked(w, v, s, close)
    ensures Paced(v, c, desk, now)
  {
    forall x ensures SymbolPaced(v, c, desk, x, now) {
      assert SymbolPaced(w, c, desk, x, now);
      SameStaysPaced(w, v, c, desk, desk, x, now);
    }
  }

  lemma MarkedBooks(w: World, v: World, c: Ctx, s: Symbol, close: real)
    requires IsMarked(w, v, s, close) && BooksOk(w) && PairedOk(w) && Known(w, c)
    ensures BooksOk(v) && PairedOk(v) && Known(v, c)
    ensures SlotsUsed(v, c) == SlotsUsed(w, c)
  {
    assert FilledEntries(v, c, SPY) == FilledEntries(w, c, SPY);
    assert FilledEntries(v, c, QQQ) == FilledEntries(w, c, QQQ);
    assert FilledEntries(v, c, IWM) == FilledEntries(w, c, IWM);
  }

  lemma MarkedSteady(w: World, v: World, c: Ctx, desk: Desk, s: Symbol, close: real, now: int)
    requires Steady(w, c, desk, now) && IsMarked(w, v, s, close) && Inv(v.account)
    ensures Steady(v, c, desk, now)
  {
    MarkedCoupled(w, v, c, desk, s, close);
    MarkedPaced(w, v, c, desk, s, close, now);
    MarkedBooks(w, v, c, s, close);
  }

  lemma MarkedCover(w: World, v: World, s: Symbol, close: real)
    requires IsMarked(w, v, s, close)
    ensures KeepsCover(w, v)
  {}

  lemma OnMarkSteady(w: World, c: Ctx, desk: Desk, s: Symbol, close: real, now: int)
    requires Steady(w, c, desk, now) && s in w.account.positions && close > 0.0
    ensures var r := OnMark(w, s, close);
            && r.Success? && IsMarked(w, r.value, s, close)
            && Steady(r.value, c, desk, now) && KeepsCover(w, r.value)
  {
    var v := OnMark(w, s, close).value;
    MarkKeepsInv(w.account, s, close);
    MarkedSteady(w, v, c, desk, s, close, now);
    MarkedCover(w, v, s, close);
  }

  // ----- Risk exits and closeout -----

  /** The limit that the position of `s` has reached at this close. */
  ghost function Reached(w: World, c: Ctx, now: int, s: Symbol, close: real): Option<Reason>
    requires s in w.account.positions && s in w.openTrades && w.account.positions[s].averageCost > 0.0
  {
    RiskReason(c.rules, close, w.account.positions[s].averageCost, Some(now + 1 - w.openTrades[s].entryTime))
  }

  /** The risk check itself does not raise: a long symbol was opened no later than now. */
  lemma RiskChecked(w: World, c: Ctx, desk: Desk, now: int, s: Symbol, close: real)
    requires SymbolCoupled(w, c, desk, s) && SymbolPaced(w, c, desk, s, now) && PositionsOk(w.account.positions)
    requires s in w.account.positions
    ensures w.account.positions[s].averageCost > 0.0 && s in w.openTrades && s in c.rules.symbols
    ensures OnRisk(w, c, now, s, close) ==
            if !State(w, c, s).phase.Long? || Reached(w, c, now, s, close).None? then Success(w)
            else
              Submit(w, c, OrderId(c.session, Reached(w, c, now, s, close).value, Sell, now + 1, s), close,
                     w.account.positions[s].quantity, false)
  {}

  /** A held symbol is being sold, or none of its three limits is reached. */
  ghost predicate Guarded(w: World, c: Ctx, desk: Desk, now: int, s: Symbol, close: real) {
    s in w.account.positions && s in w.openTrades && w.account.positions[s].averageCost > 0.0 ==>
      s in desk || Reached(w, c, now, s, close).None?
  }

  /** What the reasons mean: a loss of the stop, a gain of the target, or the holding time. */
  lemma RiskReasonMeans(rules: Rules, close: real, averageCost: real, held: int)
    requires averageCost > 0.0 && close > 0.0
    ensures var reason := RiskReason(rules, close, averageCost, Some(held));
            && (reason == Some(StopLoss) <==> close <= averageCost * (1.0 - rules.stopLossBps as real / 10000.0))
            && (reason == Some(TakeProfit) <==>
                close >= averageCost * (1.0 + rules.takeProfitBps as real / 10000.0) && reason != Some(StopLoss))
            && (reason == Some(MaxHolding) <==>
                held >= rules.maxHoldingMinutes && reason != Some(StopLoss) && reason != Some(TakeProfit))
            && (reason.None? || reason == Some(StopLoss) || reason == Some(TakeProfit) || reason == Some(MaxHolding))
  {
    var ratio := close / averageCost;
    assert ratio * averageCost == close;
    Scaled(ratio, 1.0 - rules.stopLossBps as real / 10000.0, averageCost);
    Scaled(1.0 + rules.takeProfitBps as real / 10000.0, ratio, averageCost);
  }

  lemma Scaled(x: real, y: real, k: real)
    requires k > 0.0
    ensures x <= y <==> k * x <= k * y
  {}

  /** The risk check sells a position that rests at a limit, whole and for that reason, and else does
      nothing. */
  ghost predicate RiskEffect(w: World, v: World, c: Ctx, now: int, s: Symbol, close: real)
    requires s in w.account.positions && s in w.openTrades && w.account.positions[s].averageCost > 0.0
  {
    var reason := Reached(w, c, now, s, close);
    if Resting(w, s) && reason.Some? then
      Placed(w, v, c, OrderId(c.session, reason.value, Sell, now + 1, s), close, w.account.positions[s].quantity)
    else NothingPlaced(w, v)
  }

  /** What the risk check of one symbol leaves behind. */
  ghost predicate RiskDone(w: World, v: World, c: Ctx, desk: Desk, later: Desk, now: int, s: Symbol, close: real) {
    && Steady(v, c, later, now)
    && AddsAtMost(w.intentKeys, v.intentKeys, c.session, RiskFamily, now + 1, s)
    && v.trades == w.trades && v.account.positions == w.account.positions && v.openTrades == w.openTrades
    && KeepsCover(w, v) && Extends(w, v, now)
    && (forall x :: x in desk ==> x in later)
    && Guarded(v, c, later, now, s, close)
  }

  lemma RiskSells(w: World, c: Ctx, desk: Desk, now: int, s: Symbol, close: real, reason: Reason) returns (later: Desk)
    requires Steady(w, c, desk, now) && s in w.account.positions && s in c.rules.symbols && close > 0.0
    requires State(w, c, s).phase.Long? && FamilyOf(reason) == RiskFamily
    requires OrderId(c.session, reason, Sell, now + 1, s) !in w.intentKeys
    requires s in w.openTrades && w.account.positions[s].averageCost > 0.0
    requires Resting(w, s) && Reached(w, c, now, s, close) == Some(reason)
    ensures var r := Submit(w, c, OrderId(c.session, reason, Sell, now + 1, s), close,
                            w.account.positions[s].quantity, false);
            && r.Success? && RiskDone(w, r.value, c, desk, later, now, s, close)
            && RiskEffect(w, r.value, c, now, s, close)
  {
    var id := OrderId(c.session, reason, Sell, now + 1, s);
    var quantity := w.account.positions[s].quantity;
    later := ExitSteady(w, c, desk, now, id, close, false);
    AcceptedIsPlaced(w, Submit(w, c, id, close, quantity, false).value, c, id, close, quantity, 0.0);
  }

  lemma OnRiskSteady(w: World, c: Ctx, desk: Desk, now: int, s: Symbol, close: real, todo: set<Symbol>)
    returns (later: Desk)
    requires Steady(w, c, desk, now) && s in w.account.positions && close > 0.0
    requires Fresh(w.intentKeys, c.session, RiskFamily, now + 1, todo) && s in todo
    ensures w.account.positions[s].averageCost > 0.0 && s in w.openTrades
    ensures var r := OnRisk(w, c, now, s, close);
            && r.Success? && RiskDone(w, r.value, c, desk, later, now, s, close)
            && RiskEffect(w, r.value, c, now, s, close)
  {
    assert SymbolCoupled(w, c, desk, s) && SymbolPaced(w, c, desk, s, now);
    PhaseMeans(w, c, desk, s, now);
    RiskChecked(w, c, desk, now, s, close);
    if State(w, c, s).phase.Long? && Reached(w, c, now, s, close).Some? {
      later := RiskSells(w, c, desk, now, s, close, Reached(w, c, now, s, close).value);
    } else {
      later := desk;
      RiskRests(w, c, desk, now, s, close);
    }
  }

  lemma RiskRests(w: World, c: Ctx, desk: Desk, now: int, s: Symbol, close: real)
    requires Steady(w, c, desk, now) && s in w.account.positions && s in w.openTrades && s in c.rules.symbols
    requires w.account.positions[s].averageCost > 0.0
    requires State(w, c, s).phase.Long? ==> Reached(w, c, now, s, close).None?
    ensures RiskDone(w, w, c, desk, desk, now, s, close)
    ensures !(Resting(w, s) && Reached(w, c, now, s, close).Some?) ==> RiskEffect(w, w, c, now, s, close)
  {
    assert SymbolCoupled(w, c, desk, s) && SymbolPaced(w, c, desk, s, now);
    RiskGuards(w, c, desk, now, s, close);
  }

  lemma RiskGuards(w: World, c: Ctx, desk: Desk, now: int, s: Symbol, close: real)
    requires SymbolCoupled(w, c, desk, s) && s in w.account.positions && s in w.openTrades && s in c.rules.symbols
    requires w.account.positions[s].averageCost > 0.0
    requires State(w, c, s).phase.Long? ==> Reached(w, c, now, s, close).None?
    ensures Guarded(w, c, desk, now, s, close)
  {}

  lemma OnCloseoutSteady(w: World, c: Ctx, desk: Desk, now: int, s: Symbol, open: real, todo: set<Symbol>)
    returns (later: Desk)
    requires Steady(w, c, desk, now) && s in w.account.positions && State(w, c, s).phase.Long? && open > 0.0
    requires Fresh(w.intentKeys, c.session, CloseFamily, now, todo) && s in todo && now == c.closeout - 1
    ensures later == desk[s := OrderId(c.session, SessionClose, Sell, now, s)]
    ensures var r := OnCloseout(w, c, now, s, open);
            var id := OrderId(c.session, SessionClose, Sell, now, s);
            && r.Success? && Steady(r.value, c, later, now)
            && AddsAtMost(w.intentKeys, r.value.intentKeys, c.session, CloseFamily, now, s)
            && r.value.trades == w.trades && r.value.account.positions == w.account.positions
            && KeepsCover(w, r.value) && Extends(w, r.value, now)
            && Accepted(w, r.value, c, id, open, w.account.positions[s].quantity, true,
                        WithOrder(w.account, id, w.account.positions[s].quantity, 0.0))
  {
    assert SymbolCoupled(w, c, desk, s);
    later := ExitSteady(w, c, desk, now, OrderId(c.session, SessionClose, Sell, now, s), open, true);
  }
}
