/** A working order meets a bar: it rests, fills, or (a buy that has become too dear) is dropped.
    Each outcome keeps the coupling, the pace and the books, and none raises. */
module FillLaws {
  import opened Wrappers
  import opened Accounts
  import opened AccountLaws
  import opened Phases
  import opened Orders
  import opened Engine
  import opened Coupling
  import opened Pacing
  import opened Books
  import opened Slots

  /** `v` is `w` without the working order `id`, and `s` in runtime state `state`. */
  ghost predicate Resolved(w: World, v: World, c: Ctx, id: OrderId, state: RuntimeState) {
    && (forall x :: x != id.symbol ==> State(v, c, x) == State(w, c, x))
    && State(v, c, id.symbol) == state
    && SameSessions(w, v, c)
    && v.pending == w.pending - {id}
    && v.account.reservations == w.account.reservations - {id}
    && v.account.maxPositions == w.account.maxPositions
    && v.intentKeys == w.intentKeys && v.intents == w.intents
  }

  /** The buy filled at `price`: cash paid, position and open trade at that price, fill on record. */
  ghost predicate IsOpened(w: World, v: World, c: Ctx, id: OrderId, now: int, price: real)
    requires id in w.pending
  {
    var q := w.pending[id].intent.quantity;
    && Resolved(w, v, c, id, State(w, c, id.symbol).(phase := Long, entries := State(w, c, id.symbol).entries + 1,
                                                     openedAt := Some(now), cooldownUntil := None))
    && Near(v.account.cash, w.account.cash - Paid(q, price, 0.0))
    && v.account.positions == w.account.positions[id.symbol := Position(q, price, price)]
    && v.openTrades ==
       w.openTrades[id.symbol := OpenTrade(c.session, q, now, price, ImpactPaid(q, price, Buy, c.scenario))]
    && v.trades == w.trades
    && v.account.realizedPnl == w.account.realizedPnl
    && v.account.fills == w.account.fills + [FillEvent(id, id.symbol, Buy, q, price, 0.0, None)]
  }

  /** The trade that a sell at `price` finishes. */
  function Finished(c: Ctx, id: OrderId, t: OpenTrade, now: int, price: real): Trade {
    var net := Gain(t.quantity, price, t.entryPrice, 0.0);
    var cost := t.entryCost + ImpactPaid(t.quantity, price, Sell, c.scenario);
    Trade(id.symbol, c.session, t.quantity, t.entryTime, now, t.entryPrice, price, net + cost, net, cost,
          id.reason.SessionClose?)
  }

  /** The sell filled at `price`: cash received, nothing held, the trade and the fill on record. */
  ghost predicate IsClosed(w: World, v: World, c: Ctx, id: OrderId, now: int, price: real)
    requires id in w.pending && id.symbol in w.openTrades && id.symbol in w.account.positions
  {
    var q := w.pending[id].intent.quantity;
    var trade := Finished(c, id, w.openTrades[id.symbol], now, price);
    && Resolved(w, v, c, id, State(w, c, id.symbol).(phase := Cooldown, openedAt := None,
                                                     cooldownUntil := Some(now + c.rules.cooldownMinutes)))
    && Near(v.account.cash, w.account.cash + Proceeds(q, price, 0.0))
    && v.account.positions == w.account.positions - {id.symbol}
    && v.openTrades == w.openTrades - {id.symbol}
    && v.trades == w.trades + [trade]
    && v.account.realizedPnl == w.account.realizedPnl + trade.netPnl
    && v.account.fills == w.account.fills +
       [FillEvent(id, id.symbol, Sell, q, price, 0.0, Some(if id.reason.SessionClose? then EndOfDay else Strategy))]
  }

  ghost predicate IsDropped(w: World, v: World, c: Ctx, id: OrderId) {
    && Resolved(w, v, c, id, State(w, c, id.symbol).(phase := if id.side.Buy? then Flat else Long))
    && v.account.positions == w.account.positions && v.openTrades == w.openTrades && v.trades == w.trades
    && v.account.realizedPnl == w.account.realizedPnl && v.account.fills == w.account.fills
  }

  // ----- The steps have these shapes and do not raise -----

  lemma OrderFacts(w: World, c: Ctx, desk: Desk, id: OrderId)
    requires Coupled(w, c, desk) && id in w.pending
    ensures id.symbol in desk && desk[id.symbol] == id && id.symbol in c.rules.symbols
    ensures WorkingOrder(w, c, id, id.symbol, id.side)
    ensures var state := State(w, c, id.symbol);
            state.Valid() && state.phase == (if id.side.Buy? then EntryPending else ExitPending)
    ensures id.side.Buy? ==> Unheld(w, id.symbol)
    ensures id.side.Sell? ==> HeldSince(w, c, id.symbol, State(w, c, id.symbol).openedAt) &&
                              w.pending[id].intent.quantity == w.account.positions[id.symbol].quantity
  {
    assert SymbolCoupled(w, c, desk, id.symbol);
  }

  lemma DroppedShape(w: World, c: Ctx, desk: Desk, id: OrderId)
    requires Coupled(w, c, desk) && Inv(w.account) && id in w.pending
    ensures var r := Dropped(w, c, id); r.Success? && IsDropped(w, r.value, c, id) && Inv(r.value.account)
    ensures var r := Dropped(w, c, id); r.value.account == Cancel(w.account, id).value
  {
    OrderFacts(w, c, desk, id);
    CancelKeepsInv(w.account, id);
  }

  /** The impact recorded for a fill is the one that can be worked out from the fill. */
  lemma CostOfTicket(w: World, c: Ctx, desk: Desk, id: OrderId, bar: Bar, now: int)
    requires Coupled(w, c, desk) && id in w.pending && bar.Valid() && w.pending[id].intent.Valid()
    requires FillPrice(w.pending[id].intent, bar, now, Costs(c.scenario)).Some?
    ensures var price := FillPrice(w.pending[id].intent, bar, now, Costs(c.scenario)).value;
            FillCost(w.pending[id], bar, price, 0.0) ==
                ImpactPaid(w.pending[id].intent.quantity, price, id.side, c.scenario)
  {
    OrderFacts(w, c, desk, id);
    var order := w.pending[id];
    FillPriceMeans(order.intent, bar, now, c.scenario);
    ImpactOfAdverse(bar.open, id.side, c.scenario);
    ImpactOfAdverse(order.referencePrice, id.side, c.scenario);
  }

  lemma OpenedShape(w: World, c: Ctx, desk: Desk, id: OrderId, now: int, price: real, cost: real)
    requires Coupled(w, c, desk) && Inv(w.account) && id in w.pending && id.side.Buy? && price > 0.0
    requires cost == ImpactPaid(w.pending[id].intent.quantity, price, Buy, c.scenario)
    requires Fill(w.account, id, w.pending[id].intent.quantity, price, 0.0, ExitReasonOf(id)).Success?
    ensures var account := Fill(w.account, id, w.pending[id].intent.quantity, price, 0.0, ExitReasonOf(id)).value;
            var r := Opened(w, c, id, account, now, price, cost);
            r.Success? && r.value.account == account && Inv(account) && IsOpened(w, r.value, c, id, now, price)
  {
    OrderFacts(w, c, desk, id);
    FullBuy(w.account, id, w.pending[id].intent.quantity, price, ExitReasonOf(id));
  }

  /** The cash left by this fill would be less than what the other orders have reserved. */
  ghost predicate TooDear(w: World, id: OrderId, price: real)
    requires id in w.pending && id in w.account.reservations
  {
    w.account.cash - Paid(w.pending[id].intent.quantity, price, 0.0) < PromisedToOthers(w.account, id) - MONEY_EPSILON
  }

  /** A crossing buy opens a position, and is dropped exactly when it is too dear. */
  lemma BuyFilledShape(w: World, c: Ctx, desk: Desk, id: OrderId, bar: Bar, now: int, price: real)
    requires Coupled(w, c, desk) && Inv(w.account) && id in w.pending && id.side.Buy? && price > 0.0
    requires FillCost(w.pending[id], bar, price, 0.0) ==
             ImpactPaid(w.pending[id].intent.quantity, price, Buy, c.scenario)
    ensures id in w.account.reservations
    ensures var r := FilledAt(w, c, id, bar, now, price);
            && r.Success? && Inv(r.value.account)
            && (if TooDear(w, id, price) then IsDropped(w, r.value, c, id) else IsOpened(w, r.value, c, id, now, price))
  {
    var q := w.pending[id].intent.quantity;
    OrderFacts(w, c, desk, id);
    NoFees(q, c.scenario);
    DroppedShape(w, c, desk, id);
    FullBuy(w.account, id, q, price, ExitReasonOf(id));
    if !TooDear(w, id, price) {
      OpenedShape(w, c, desk, id, now, price, FillCost(w.pending[id], bar, price, 0.0));
    }
  }

  /** The recorded trade is the finished one. */
  lemma TradeIsFinished(c: Ctx, id: OrderId, order: PendingOrder, t: OpenTrade, now: int, price: real,
                        averageCost: real,
                        cost: real)
    requires order.intent.quantity == t.quantity && averageCost == t.entryPrice &&
             (order.forced <==> id.reason.SessionClose?)
    requires t.session == c.session && cost == ImpactPaid(t.quantity, price, Sell, c.scenario)
    ensures TradeOf(c, id, order, t, now, price, Gain(t.quantity, price, averageCost, 0.0), cost) ==
            Finished(c, id, t, now, price)
  {}

  lemma ClosedShape(w: World, c: Ctx, desk: Desk, id: OrderId, now: int, price: real, cost: real)
    requires Coupled(w, c, desk) && Inv(w.account) && id in w.pending && id.side.Sell? && price > 0.0
    requires c.rules.cooldownMinutes > 0
    requires cost == ImpactPaid(w.pending[id].intent.quantity, price, Sell, c.scenario)
    ensures id.symbol in w.openTrades && id.symbol in w.account.positions
    ensures var filled := Fill(w.account, id, w.pending[id].intent.quantity, price, 0.0, ExitReasonOf(id));
            && filled.Success?
            && var r := Closed(w, c, id, filled.value, now, price, 0.0, cost);
               && r.Success? && r.value.account == filled.value && Inv(filled.value)
               && IsClosed(w, r.value, c, id, now, price)
  {
    OrderFacts(w, c, desk, id);
    FullSell(w.account, id, w.pending[id].intent.quantity, price, ExitReasonOf(id));
    TradeIsFinished(c, id, w.pending[id], w.openTrades[id.symbol], now, price,
                    w.account.positions[id.symbol].averageCost, cost);
  }

  lemma SellFilledShape(w: World, c: Ctx, desk: Desk, id: OrderId, bar: Bar, now: int, price: real)
    requires Coupled(w, c, desk) && Inv(w.account) && id in w.pending && id.side.Sell? && price > 0.0
    requires FillCost(w.pending[id], bar, price, 0.0) ==
             ImpactPaid(w.pending[id].intent.quantity, price, Sell, c.scenario)
    requires c.rules.cooldownMinutes > 0
    ensures id.symbol in w.openTrades && id.symbol in w.account.positions
    ensures var r := FilledAt(w, c, id, bar, now, price);
            && r.Success? && Inv(r.value.account) && IsClosed(w, r.value, c, id, now, price)
  {
    OrderFacts(w, c, desk, id);
    NoFees(w.pending[id].intent.quantity, c.scenario);
    ClosedShape(w, c, desk, id, now, price, FillCost(w.pending[id], bar, price, 0.0));
  }

  /** `v` is one of the three outcomes for order `id`. */
  ghost predicate Outcome(w: World, v: World, c: Ctx, id: OrderId, now: int, price: real) {
    && id in w.pending
    && (|| IsDropped(w, v, c, id)
        || (price > 0.0 && id.side.Buy? && IsOpened(w, v, c, id, now, price))
        || (price > 0.0 && id.side.Sell? && id.symbol in w.openTrades && id.symbol in w.account.positions &&
            IsClosed(w, v, c, id, now, price)))
  }

  /** What a fill at `price` does: a sell always closes, a buy opens unless it is too dear. */
  ghost predicate FillOutcome(w: World, v: World, c: Ctx, id: OrderId, now: int, price: real) {
    && id in w.pending && id in w.account.reservations && price > 0.0
    && if id.side.Sell? then
         id.symbol in w.openTrades && id.symbol in w.account.positions && IsClosed(w, v, c, id, now, price)
       else if TooDear(w, id, price) then IsDropped(w, v, c, id)
       else IsOpened(w, v, c, id, now, price)
  }

  // ----- Coupling -----

  lemma OpenedSame(w: World, v: World, c: Ctx, desk: Desk, id: OrderId, now: int, price: real, s: Symbol)
    requires id in w.pending && IsOpened(w, v, c, id, now, price) && s != id.symbol
    ensures SameFor(w, v, c, desk, desk - {id.symbol}, s)
  {}

  lemma ClosedSame(w: World, v: World, c: Ctx, desk: Desk, id: OrderId, now: int, price: real, s: Symbol)
    requires id in w.pending && id.symbol in w.openTrades && id.symbol in w.account.positions
    requires IsClosed(w, v, c, id, now, price) && s != id.symbol
    ensures SameFor(w, v, c, desk, desk - {id.symbol}, s)
    ensures SameTrades(w.trades, v.trades, s)
  {
    var t := v.trades[|w.trades|];
    assert t.symbol != s && v.trades == w.trades + [t];
  }

  lemma ResolvedSame(w: World, v: World, c: Ctx, desk: Desk, id: OrderId, now: int, price: real, s: Symbol)
    requires Outcome(w, v, c, id, now, price) && s != id.symbol
    ensures SameFor(w, v, c, desk, desk - {id.symbol}, s)
    ensures SameTrades(w.trades, v.trades, s)
  {
    if IsDropped(w, v, c, id) {
    } else if id.side.Buy? {
      OpenedSame(w, v, c, desk, id, now, price, s);
    } else {
      ClosedSame(w, v, c, desk, id, now, price, s);
    }
  }

  lemma ResolvedOwn(w: World, v: World, c: Ctx, desk: Desk, id: OrderId, now: int, price: real)
    requires Coupled(w, c, desk) && Outcome(w, v, c, id, now, price)
    ensures SymbolCoupled(v, c, desk - {id.symbol}, id.symbol)
  {
    OrderFacts(w, c, desk, id);
    assert SymbolCoupled(w, c, desk, id.symbol);
  }

  lemma ResolvedCoupled(w: World, v: World, c: Ctx, desk: Desk, id: OrderId, now: int, price: real)
    requires Coupled(w, c, desk) && Outcome(w, v, c, id, now, price)
    ensures Coupled(v, c, desk - {id.symbol})
  {
    var later := desk - {id.symbol};
    OrderFacts(w, c, desk, id);
    ResolvedOwn(w, v, c, desk, id, now, price);
    forall s ensures SymbolCoupled(v, c, later, s) {
      if s != id.symbol {
        ResolvedSame(w, v, c, desk, id, now, price, s);
        SameStaysCoupled(w, v, c, desk, later, s);
      }
    }
    assert forall i :: i in v.pending ==> i in w.pending && i != id;
  }

  // ----- Pace -----

  lemma OpenedOwnPaced(w: World, v: World, c: Ctx, desk: Desk, id: OrderId, now: int, price: real)
    requires Coupled(w, c, desk) && id in w.pending && id.side.Buy? && IsOpened(w, v, c, id, now, price)
    requires SymbolPaced(w, c, desk, id.symbol, now) && id.signalTime < now
    ensures SymbolPaced(v, c, desk - {id.symbol}, id.symbol, now)
  {
    OrderFacts(w, c, desk, id);
  }

  lemma DroppedOwnPaced(w: World, v: World, c: Ctx, desk: Desk, id: OrderId, now: int)
    requires Coupled(w, c, desk) && id in w.pending && IsDropped(w, v, c, id)
    requires SymbolPaced(w, c, desk, id.symbol, now)
    ensures SymbolPaced(v, c, desk - {id.symbol}, id.symbol, now)
  {
    OrderFacts(w, c, desk, id);
  }

  lemma ClosedOwnPaced(w: World, v: World, c: Ctx, desk: Desk, id: OrderId, now: int, price: real)
    requires Coupled(w, c, desk) && id in w.pending && id.side.Sell? && c.rules.cooldownMinutes > 0
    requires id.symbol in w.openTrades && id.symbol in w.account.positions && IsClosed(w, v, c, id, now, price)
    requires SymbolPaced(w, c, desk, id.symbol, now)
    ensures SymbolPaced(v, c, desk - {id.symbol}, id.symbol, now)
  {
    OrderFacts(w, c, desk, id);
    var t := v.trades[|w.trades|];
    assert v.trades == w.trades + [t];
    TradesOfGrows(w.trades, t, id.symbol, c.session);
  }

  lemma ResolvedPaced(w: World, v: World, c: Ctx, desk: Desk, id: OrderId, now: int, price: real)
    requires Coupled(w, c, desk) && Outcome(w, v, c, id, now, price) && Paced(w, c, desk, now)
    requires c.rules.cooldownMinutes > 0 && (id.signalTime < now || IsDropped(w, v, c, id))
    ensures Paced(v, c, desk - {id.symbol}, now)
  {
    var later := desk - {id.symbol};
    forall s ensures SymbolPaced(v, c, later, s, now) {
      assert SymbolPaced(w, c, desk, s, now);
      if s != id.symbol {
        ResolvedSame(w, v, c, desk, id, now, price, s);
        SameStaysPaced(w, v, c, desk, later, s, now);
      } else if IsDropped(w, v, c, id) {
        DroppedOwnPaced(w, v, c, desk, id, now);
      } else if id.side.Buy? {
        OpenedOwnPaced(w, v, c, desk, id, now, price);
      } else {
        ClosedOwnPaced(w, v, c, desk, id, now, price);
      }
    }
  }

  lemma ResolvedTradesOk(w: World, v: World, c: Ctx, desk: Desk, id: OrderId, now: int, price: real)
    requires Coupled(w, c, desk) && Outcome(w, v, c, id, now, price) && Paced(w, c, desk, now) && TradesOk(w.trades, c)
    requires id.signalTime < now <= c.closeout && (now == c.closeout ==> w.pending[id].forced)
    ensures TradesOk(v.trades, c)
  {
    OrderFacts(w, c, desk, id);
    assert SymbolPaced(w, c, desk, id.symbol, now);
    if id.side.Sell? && !IsDropped(w, v, c, id) {
      var t := v.trades[|w.trades|];
      assert v.trades == w.trades + [t];
      assert TradeOk(t, c.scenario) && InSession(t, c);
      forall i | 0 <= i < |w.trades| ensures Apart(v.trades[i], t, c.rules.cooldownMinutes) {
        assert v.trades[i] == w.trades[i];
      }
      forall d | d in c.past ensures SessionTrades(v.trades, d) <= c.rules.maxEntries {
        SessionTradesGrow(w.trades, t, d);
      }
    }
  }

  // ----- Books and slots -----

  lemma FilledSlots(w: World, v: World, c: Ctx, id: OrderId, now: int, price: real)
    requires Outcome(w, v, c, id, now, price) && id.symbol in c.rules.symbols
    ensures SlotsUsed(v, c) <= SlotsUsed(w, c)
  {
    BuyOrdersDrop(w.pending, id);
    if !IsDropped(w, v, c, id) {
      assert State(v, c, id.symbol).entries == State(w, c, id.symbol).entries + (if id.side.Buy? then 1 else 0);
    }
  }

  lemma OpenedBooks(w: World, v: World, c: Ctx, id: OrderId, now: int, price: real)
    requires id in w.pending && id.side.Buy? && IsOpened(w, v, c, id, now, price) && Unheld(w, id.symbol)
    requires id in w.intentKeys && BooksOk(w) && PairedOk(w)
    ensures BooksOk(v) && PairedOk(v)
  {
    TapeNext(w.account.fills, v.account.fills[|w.account.fills|]);
  }

  lemma ClosedBooks(w: World, v: World, c: Ctx, id: OrderId, now: int, price: real)
    requires id in w.pending && id.side.Sell? && id.symbol in w.openTrades && id.symbol in w.account.positions
    requires w.account.positions[id.symbol].quantity == w.pending[id].intent.quantity ==
             w.openTrades[id.symbol].quantity
    requires w.account.positions[id.symbol].averageCost == w.openTrades[id.symbol].entryPrice
    requires id in w.intentKeys && IsClosed(w, v, c, id, now, price) && BooksOk(w) && PairedOk(w)
    ensures BooksOk(v) && PairedOk(v)
  {
    var trade := v.trades[|w.trades|];
    NetPnlGrows(w.trades, trade);
    TapeNext(w.account.fills, v.account.fills[|w.account.fills|]);
    assert TripsOf(v.trades) == TripsOf(w.trades) + [TripOf(trade)];
  }

  lemma ResolvedBooks(w: World, v: World, c: Ctx, desk: Desk, id: OrderId, now: int, price: real)
    requires Coupled(w, c, desk) && Outcome(w, v, c, id, now, price) && BooksOk(w) && PairedOk(w)
    ensures BooksOk(v) && PairedOk(v)
  {
    OrderFacts(w, c, desk, id);
    if IsDropped(w, v, c, id) {
    } else if id.side.Buy? {
      OpenedBooks(w, v, c, id, now, price);
    } else {
      ClosedBooks(w, v, c, id, now, price);
    }
  }
}
