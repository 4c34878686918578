/** Submitting an order: the reservation always succeeds and the coupling is kept. */
module SubmitLaws {
  import opened Wrappers
  import opened Accounts
  import opened AccountLaws
  import opened CashCover
  import opened Phases
  import opened Orders
  import opened Engine
  import opened Coupling

  lemma {:induction false} NoSellsNoShares<S, O>(m: map<O, Reservation<S>>, symbol: S)
    requires forall id :: id in m && m[id].side.Sell? ==> m[id].symbol != symbol
    ensures SellReserved(m, symbol) == 0.0
    decreases |m|
  {
    if m != map[] {
      var id :| id in m;
      SellReservedTake(m, id, symbol);
      NoSellsNoShares(m - {id}, symbol);
    }
  }

  lemma {:induction false} BuySymbolHasOrder<S(!new), O>(m: map<O, Reservation<S>>, symbol: S)
    requires forall id :: id in m && m[id].side.Buy? ==> m[id].symbol != symbol
    ensures symbol !in BuySymbols(m)
    decreases |m|
  {
    if m != map[] {
      var id :| id in m;
      BuySymbolsTake(m, id);
      BuySymbolHasOrder(m - {id}, symbol);
    }
  }

  lemma AtMostTwoOthers(a: set<Symbol>, s: Symbol)
    requires s !in a
    ensures |a| < MAX_POSITIONS
  {
    var others := if s.SPY? then {QQQ, IWM} else if s.QQQ? then {SPY, IWM} else {SPY, QQQ};
    assert |others| == 2;
    forall x | x in a ensures x in others {
      assert x == SPY || x == QQQ || x == IWM;
    }
    SubsetFits(others, a, 2);
  }

  /** No reservation mentions a symbol that is not on the desk. */
  lemma NoReservationOffDesk(w: World, c: Ctx, desk: Desk, s: Symbol)
    requires Coupled(w, c, desk) && s !in desk
    ensures forall id :: id in w.account.reservations ==> id.symbol != s && w.account.reservations[id].symbol != s
  {
    forall id | id in w.account.reservations
      ensures id.symbol != s && w.account.reservations[id].symbol != s
    {
      assert SymbolCoupled(w, c, desk, id.symbol);
    }
  }

  lemma SellIsReserved(w: World, c: Ctx, desk: Desk, id: OrderId, quantity: int, price: real)
    requires Coupled(w, c, desk) && Inv(w.account) && id.side.Sell? && id.symbol !in desk
    requires id.symbol in w.account.positions && quantity == w.account.positions[id.symbol].quantity && price > 0.0
    ensures Reserve(w.account, id, id.symbol, Sell, quantity, price, 0.0) ==
            var reservation := Reservation(id.symbol, Sell, quantity, 0.0);
            Success(w.account.(reservations := w.account.reservations[id := reservation]))
  {
    NoReservationOffDesk(w, c, desk, id.symbol);
    NoSellsNoShares(w.account.reservations, id.symbol);
  }

  lemma BuyIsReserved(w: World, c: Ctx, desk: Desk, id: OrderId, quantity: int, price: real)
    requires Coupled(w, c, desk) && Inv(w.account) && w.account.maxPositions == MAX_POSITIONS
    requires id.side.Buy? && id.symbol !in desk && id.symbol !in w.account.positions && quantity > 0 && price > 0.0
    requires Covered(w.account) && Paid(quantity, price, 0.0) <= AvailableCash(w.account).value
    ensures Reserve(w.account, id, id.symbol, Buy, quantity, price, 0.0) ==
            var reservation := Reservation(id.symbol, Buy, quantity, Paid(quantity, price, 0.0));
            Success(w.account.(reservations := w.account.reservations[id := reservation]))
  {
    NoReservationOffDesk(w, c, desk, id.symbol);
    BuySymbolHasOrder(w.account.reservations, id.symbol);
    AtMostTwoOthers(Occupied(w.account), id.symbol);
  }

  /** The reservation `Submit` asks for. */
  ghost function Reserved(w: World, c: Ctx, id: OrderId, price: real, quantity: int)
    : Result<Account<Symbol, OrderId>, AccountError>
  {
    Reserve(w.account, id, id.symbol, id.side, quantity, Adverse(price, id.side, Costs(c.scenario)), 0.0)
  }

  /** `v` is `w` with order `id` accepted and reserved in `account`. */
  ghost predicate Accepted(w: World, v: World, c: Ctx, id: OrderId, price: real, quantity: int, forced: bool,
                           account: Account<Symbol, OrderId>)
  {
    && v.account == account
    && SameSessions(w, v, c)
    && (forall x :: x != id.symbol ==> State(v, c, x) == State(w, c, x))
    && State(v, c, id.symbol) ==
       State(w, c, id.symbol).(phase := if id.side.Buy? then EntryPending else ExitPending,
                               lastSignal := Some(if id.side.Buy? then EnterLong else ExitLong),
                               lastSignalAt := Some(id.signalTime))
    && v.pending == w.pending[id := PendingOrder(MakeIntent(c, id, price, quantity, forced), price, forced)]
    && v.openTrades == w.openTrades && v.trades == w.trades
    && v.intentKeys == w.intentKeys + {id}
    && v.intents == w.intents + [MakeIntent(c, id, price, quantity, forced)]
  }

  lemma IntentIsValid(c: Ctx, id: OrderId, price: real, quantity: int, forced: bool)
    requires price > 0.0 && quantity > 0
    ensures MakeIntent(c, id, price, quantity, forced).Valid()
  {
    AdversePositive(price, id.side, c.scenario);
  }

  /** Neither early exit is taken: the id is new and the reservation succeeds. */
  lemma SubmitAccepts(w: World, c: Ctx, id: OrderId, price: real, quantity: int, forced: bool)
    requires price > 0.0 && quantity > 0 && id !in w.intentKeys
    requires State(w, c, id.symbol).Valid()
    requires State(w, c, id.symbol).phase == (if id.side.Buy? then Flat else Long)
    requires Reserved(w, c, id, price, quantity).Success?
    requires id.session == c.session
    ensures var r := Submit(w, c, id, price, quantity, forced);
            && r.Success?
            && Accepted(w, r.value, c, id, price, quantity, forced, Reserved(w, c, id, price, quantity).value)
  {
    IntentIsValid(c, id, price, quantity, forced);
    NoFees(quantity, c.scenario);
  }

  lemma AcceptedSame(w: World, v: World, c: Ctx, desk: Desk, id: OrderId, price: real, quantity: int, forced: bool,
                     account: Account<Symbol, OrderId>, s: Symbol)
    requires Accepted(w, v, c, id, price, quantity, forced, account) && s != id.symbol
    requires account.positions == w.account.positions
    requires id in account.reservations &&
             account.reservations == w.account.reservations[id := account.reservations[id]]
    ensures SameFor(w, v, c, desk, desk[id.symbol := id], s)
  {}

  lemma AcceptedOwn(w: World, v: World, c: Ctx, desk: Desk, id: OrderId, price: real, quantity: int, forced: bool,
                    account: Account<Symbol, OrderId>)
    requires SymbolCoupled(w, c, desk, id.symbol)
    requires Accepted(w, v, c, id, price, quantity, forced, account)
    requires id.symbol in c.rules.symbols && id.session == c.session && price > 0.0 && quantity > 0
    requires State(w, c, id.symbol).phase == (if id.side.Buy? then Flat else Long)
    requires account.positions == w.account.positions
    requires id in account.reservations &&
             account.reservations == w.account.reservations[id := account.reservations[id]]
    requires account.reservations[id].symbol == id.symbol && account.reservations[id].side == id.side
    requires account.reservations[id].remaining == quantity
    requires id.side.Buy? ==> id.reason.EntrySignal? && !forced &&
                              account.reservations[id].reservedCash ==
                              Paid(quantity, Adverse(price, Buy, Costs(c.scenario)), 0.0)
    requires id.side.Sell? ==> id.symbol in w.account.positions && quantity == w.account.positions[id.symbol].quantity
    requires (forced <==> id.reason.SessionClose?) && (forced ==> id.signalTime == c.closeout - 1)
    ensures SymbolCoupled(v, c, desk[id.symbol := id], id.symbol)
    ensures id.symbol !in desk
  {
    IntentIsValid(c, id, price, quantity, forced);
  }

  lemma AcceptedCoupled(w: World, v: World, c: Ctx, desk: Desk, id: OrderId, price: real, quantity: int, forced: bool,
                        account: Account<Symbol, OrderId>)
    requires Coupled(w, c, desk)
    requires Accepted(w, v, c, id, price, quantity, forced, account)
    requires id.symbol in c.rules.symbols && id.session == c.session && price > 0.0 && quantity > 0
    requires State(w, c, id.symbol).phase == (if id.side.Buy? then Flat else Long)
    requires account.positions == w.account.positions
    requires id in account.reservations &&
             account.reservations == w.account.reservations[id := account.reservations[id]]
    requires account.reservations[id].symbol == id.symbol && account.reservations[id].side == id.side
    requires account.reservations[id].remaining == quantity
    requires id.side.Buy? ==> id.reason.EntrySignal? && !forced &&
                              account.reservations[id].reservedCash ==
                              Paid(quantity, Adverse(price, Buy, Costs(c.scenario)), 0.0)
    requires id.side.Sell? ==> id.symbol in w.account.positions && quantity == w.account.positions[id.symbol].quantity
    requires (forced <==> id.reason.SessionClose?) && (forced ==> id.signalTime == c.closeout - 1)
    ensures Coupled(v, c, desk[id.symbol := id])
  {
    var later := desk[id.symbol := id];
    AcceptedOwn(w, v, c, desk, id, price, quantity, forced, account);
    forall s ensures SymbolCoupled(v, c, later, s) {
      if s != id.symbol {
        AcceptedSame(w, v, c, desk, id, price, quantity, forced, account, s);
        SameStaysCoupled(w, v, c, desk, later, s);
      }
    }
  }

  lemma AdverseGap(base: real, side: Side, scenario: Scenario)
    requires base > 0.0
    ensures var adverse := Adverse(base, side, Costs(scenario));
            Positive(if side.Buy? then adverse - base else base - adverse) ==
            base * Costs(scenario).ImpactBps() / 10000.0
  {}

  /** The recorded cost of a fill is exactly the impact of the scenario on every share: on the opening
      price for a market order, on the reference price for a limit order. */
  lemma CostIsImpact(c: Ctx, id: OrderId, price: real, quantity: int, forced: bool, bar: Bar, now: int)
    requires price > 0.0 && quantity > 0 && bar.Valid()
    requires MakeIntent(c, id, price, quantity, forced).Valid()
    requires FillPrice(MakeIntent(c, id, price, quantity, forced), bar, now, Costs(c.scenario)).Some?
    ensures var order := PendingOrder(MakeIntent(c, id, price, quantity, forced), price, forced);
            var filled := FillPrice(order.intent, bar, now, Costs(c.scenario)).value;
            var base := if order.intent.orderType.Market? then bar.open else price;
            FillCost(order, bar, filled, 0.0) == base * Costs(c.scenario).ImpactBps() / 10000.0 * quantity as real
  {
    AdverseGap(bar.open, id.side, c.scenario);
    AdverseGap(price, id.side, c.scenario);
  }
}
