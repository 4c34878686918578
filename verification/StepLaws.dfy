/** Every step of the engine keeps every part of the invariant and does not raise. */
module StepLaws {
  import opened Accounts
  import opened AccountLaws
  import opened CashCover
  import opened Phases
  import opened Orders
  import opened Engine
  import opened Coupling
  import opened Pacing
  import opened Books
  import opened Slots
  import opened SubmitLaws
  import opened FillLaws

  ghost predicate Steady(w: World, c: Ctx, desk: Desk, now: int) {
    && c.rules.Valid()
    && Inv(w.account)
    && Coupled(w, c, desk)
    && Paced(w, c, desk, now)
    && TradesOk(w.trades, c)
    && BooksOk(w) && PairedOk(w)
    && SlotsUsed(w, c) <= c.rules.maxEntries
    && Known(w, c)
  }

  lemma OutcomeSteady(w: World, v: World, c: Ctx, desk: Desk, id: OrderId, now: int, price: real)
    requires Steady(w, c, desk, now) && Outcome(w, v, c, id, now, price) && Inv(v.account)
    requires id.signalTime < now <= c.closeout && (now == c.closeout ==> w.pending[id].forced)
    ensures Steady(v, c, desk - {id.symbol}, now)
  {
    OrderFacts(w, c, desk, id);
    ResolvedCoupled(w, v, c, desk, id, now, price);
    ResolvedPaced(w, v, c, desk, id, now, price);
    ResolvedTradesOk(w, v, c, desk, id, now, price);
    ResolvedBooks(w, v, c, desk, id, now, price);
    FilledSlots(w, v, c, id, now, price);
  }

  /** A working order meets a bar.  Untouched it keeps working; touched it fills at its price, and a
      buy that has become too dear is dropped. */
  lemma OnBarSteady(w: World, c: Ctx, desk: Desk, id: OrderId, bar: Bar, now: int)
    requires Steady(w, c, desk, now) && id in w.pending && bar.Valid()
    requires now <= c.closeout && (now == c.closeout ==> w.pending[id].forced)
    ensures WorkingOrder(w, c, id, id.symbol, id.side)
    ensures var r := OnBar(w, c, id, bar, now);
            var intent := w.pending[id].intent;
            && r.Success?
            && if Touched(intent, bar, now) then
                 && FillOutcome(w, r.value, c, id, now, PriceOf(intent, bar, c.scenario))
                 && Steady(r.value, c, desk - {id.symbol}, now)
               else r.value == w
  {
    OrderFacts(w, c, desk, id);
    var intent := w.pending[id].intent;
    FillPricePositive(intent, bar, now, c.scenario);
    FillPriceMeans(intent, bar, now, c.scenario);
    if Touched(intent, bar, now) {
      var price := PriceOf(intent, bar, c.scenario);
      var r := OnBar(w, c, id, bar, now);
      CostOfTicket(w, c, desk, id, bar, now);
      if id.side.Buy? {
        BuyFilledShape(w, c, desk, id, bar, now, price);
      } else {
        SellFilledShape(w, c, desk, id, bar, now, price);
      }
      OutcomeSteady(w, r.value, c, desk, id, now, price);
    }
  }

  // ----- Submitting -----

  function WithOrder(a: Account<Symbol, OrderId>, id: OrderId, quantity: int, cash: real): Account<Symbol, OrderId> {
    a.(reservations := a.reservations[id := Reservation(id.symbol, id.side, quantity, cash)])
  }

  /** A submission is due: right phase, new id, right quantity, right time. */
  ghost predicate Due(w: World, c: Ctx, id: OrderId, price: real, quantity: int, now: int) {
    && id.symbol in c.rules.symbols && id.session == c.session && id !in w.intentKeys
    && price > 0.0 && quantity > 0
    && State(w, c, id.symbol).phase == (if id.side.Buy? then Flat else Long)
    && (id.side.Buy? ==>
          id.reason.EntrySignal? && id.signalTime == now && c.opens <= now && SlotsUsed(w, c) < c.rules.maxEntries)
    && (id.side.Sell? ==> now <= id.signalTime && id.symbol in w.account.positions &&
                          quantity == w.account.positions[id.symbol].quantity)
  }

  lemma AcceptedOwnPaced(w: World, v: World, c: Ctx, desk: Desk, id: OrderId, price: real, quantity: int, forced: bool,
                         account: Account<Symbol, OrderId>, now: int)
    requires Accepted(w, v, c, id, price, quantity, forced, account) && Due(w, c, id, price, quantity, now)
    requires SymbolPaced(w, c, desk, id.symbol, now)
    ensures SymbolPaced(v, c, desk[id.symbol := id], id.symbol, now)
  {}

  lemma AcceptedPaced(w: World, v: World, c: Ctx, desk: Desk, id: OrderId, price: real, quantity: int, forced: bool,
                      account: Account<Symbol, OrderId>, now: int)
    requires Accepted(w, v, c, id, price, quantity, forced, account) && Due(w, c, id, price, quantity, now)
    requires Paced(w, c, desk, now)
    ensures Paced(v, c, desk[id.symbol := id], now)
  {
    var later := desk[id.symbol := id];
    forall s ensures SymbolPaced(v, c, later, s, now) {
      assert SymbolPaced(w, c, desk, s, now);
      if s == id.symbol {
        AcceptedOwnPaced(w, v, c, desk, id, price, quantity, forced, account, now);
      } else {
        SameStaysPaced(w, v, c, desk, later, s, now);
      }
    }
  }

  lemma AcceptedSlots(w: World, v: World, c: Ctx, id: OrderId, price: real, quantity: int, forced: bool,
                      account: Account<Symbol, OrderId>)
    requires Accepted(w, v, c, id, price, quantity, forced, account) && id !in w.pending
    ensures SlotsUsed(v, c) == SlotsUsed(w, c) + (if id.side.Buy? then 1 else 0)
  {
    BuyOrdersAdd(w.pending, id, PendingOrder(MakeIntent(c, id, price, quantity, forced), price, forced));
    assert State(v, c, id.symbol).entries == State(w, c, id.symbol).entries;
  }

  lemma AcceptedBooks(w: World, v: World, c: Ctx, id: OrderId, price: real, quantity: int, forced: bool, cash: real)
    requires Accepted(w, v, c, id, price, quantity, forced, WithOrder(w.account, id, quantity, cash))
    requires BooksOk(w) && PairedOk(w)
    ensures BooksOk(v) && PairedOk(v)
  {}

  lemma AcceptedSteady(w: World, v: World, c: Ctx, desk: Desk, id: OrderId, price: real, quantity: int, forced: bool,
                       cash: real, now: int)
    requires Steady(w, c, desk, now) && Due(w, c, id, price, quantity, now)
    requires Accepted(w, v, c, id, price, quantity, forced, WithOrder(w.account, id, quantity, cash))
    requires Inv(v.account)
    requires (forced <==> id.reason.SessionClose?) && (forced ==> id.signalTime == c.closeout - 1)
    requires id.side.Buy? ==> !forced && cash == Paid(quantity, Adverse(price, Buy, Costs(c.scenario)), 0.0)
    ensures Steady(v, c, desk[id.symbol := id], now) && id.symbol !in desk
  {
    var account := WithOrder(w.account, id, quantity, cash);
    assert SymbolCoupled(w, c, desk, id.symbol);
    AcceptedCoupled(w, v, c, desk, id, price, quantity, forced, account);
    AcceptedPaced(w, v, c, desk, id, price, quantity, forced, account, now);
    AcceptedSlots(w, v, c, id, price, quantity, forced, account);
    AcceptedBooks(w, v, c, id, price, quantity, forced, cash);
    StaysKnown(w, v, c);
  }

  /** A sell that is due is always accepted, for the whole position. */
  lemma SubmitSellSteady(w: World, c: Ctx, desk: Desk, id: OrderId, price: real, quantity: int, forced: bool, now: int)
    requires Steady(w, c, desk, now) && Due(w, c, id, price, quantity, now) && id.side.Sell?
    requires (forced <==> id.reason.SessionClose?) && (forced ==> id.signalTime == c.closeout - 1)
    ensures var r := Submit(w, c, id, price, quantity, forced);
            && r.Success?
            && Accepted(w, r.value, c, id, price, quantity, forced, WithOrder(w.account, id, quantity, 0.0))
            && Steady(r.value, c, desk[id.symbol := id], now) && id.symbol !in desk
  {
    assert SymbolCoupled(w, c, desk, id.symbol);
    AdversePositive(price, Sell, c.scenario);
    SellIsReserved(w, c, desk, id, quantity, Adverse(price, Sell, Costs(c.scenario)));
    SubmitAccepts(w, c, id, price, quantity, forced);
    StepKeepsInv(w.account, ReserveOp(id, id.symbol, Sell, quantity, Adverse(price, Sell, Costs(c.scenario)), 0.0));
    AcceptedSteady(w, Submit(w, c, id, price, quantity, forced).value, c, desk, id, price, quantity, forced, 0.0, now);
  }

  /** A buy that is due and affordable is always accepted, with its whole cost reserved. */
  lemma SubmitBuySteady(w: World, c: Ctx, desk: Desk, id: OrderId, price: real, quantity: int, now: int)
    requires Steady(w, c, desk, now) && Due(w, c, id, price, quantity, now) && id.side.Buy?
    requires Covered(w.account)
    requires Paid(quantity, Adverse(price, Buy, Costs(c.scenario)), 0.0) <= AvailableCash(w.account).value
    ensures var r := Submit(w, c, id, price, quantity, false);
            && r.Success?
            && Accepted(w, r.value, c, id, price, quantity, false,
                        WithOrder(w.account, id, quantity, Paid(quantity, Adverse(price, Buy, Costs(c.scenario)), 0.0)))
            && Steady(r.value, c, desk[id.symbol := id], now) && id.symbol !in desk
  {
    assert SymbolCoupled(w, c, desk, id.symbol);
    var estimate := Adverse(price, Buy, Costs(c.scenario));
    AdversePositive(price, Buy, c.scenario);
    BuyIsReserved(w, c, desk, id, quantity, estimate);
    SubmitAccepts(w, c, id, price, quantity, false);
    StepKeepsInv(w.account, ReserveOp(id, id.symbol, Buy, quantity, estimate, 0.0));
    AcceptedSteady(w, Submit(w, c, id, price, quantity, false).value, c, desk, id, price, quantity, false,
                   Paid(quantity, estimate, 0.0), now);
  }
}
