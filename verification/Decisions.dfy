/** What a feature row decides, told by the orders, positions and trades there are: when it buys, how
    much, when it sells, and what the new order looks like. */
module Decisions {
  import opened Wrappers
  import opened Accounts
  import opened CashCover
  import opened Phases
  import opened Orders
  import opened Engine
  import opened Coupling
  import opened Pacing
  import opened Books

  // ----- Whether a symbol may act -----

  ghost predicate NoOrder(w: World, s: Symbol) {
    forall id :: id in w.pending ==> id.symbol != s
  }

  /** No order, no position, and the cooldown of every trade of this session is over. */
  ghost predicate Free(w: World, c: Ctx, s: Symbol, now: int) {
    NoOrder(w, s) && s !in w.account.positions && RestedBy(w.trades, c, s, now)
  }

  /** Held, and not being sold. */
  ghost predicate Resting(w: World, s: Symbol) {
    NoOrder(w, s) && s in w.account.positions
  }

  /** Entries of the session: finished, open and still working. */
  function Entries(w: World, c: Ctx): int {
    SessionTrades(w.trades, c.session) + OpenCount(w) + |BuyOrders(w.pending)|
  }

  lemma PhaseMeans(w: World, c: Ctx, desk: Desk, s: Symbol, now: int)
    requires Coupled(w, c, desk) && SymbolPaced(w, c, desk, s, now) && s in c.rules.symbols
    ensures var phase := State(w, c, s).phase;
            && (Free(w, c, s, now) <==> phase.Flat? || (phase.Cooldown? && !CooldownActive(State(w, c, s), now)))
            && (Resting(w, s) <==> phase.Long?)
  {
    assert SymbolCoupled(w, c, desk, s);
    if s in desk {
      assert desk[s] in w.pending;
    } else {
      assert NoOrder(w, s);
    }
  }

  lemma EntriesAreSlots(w: World, c: Ctx, desk: Desk, now: int)
    requires Coupled(w, c, desk) && Paced(w, c, desk, now)
    ensures Entries(w, c) == SlotsUsed(w, c)
  {
    forall s ensures FilledEntries(w, c, s) == TradesOf(w.trades, s, c.session) + (if s in w.openTrades then 1 else 0) {
      assert SymbolCoupled(w, c, desk, s) && SymbolPaced(w, c, desk, s, now);
    }
  }

  // ----- How much it may buy -----

  /** What is left of the three places, but at least one. */
  function Places(w: World): int {
    var taken := |w.account.positions| + |BuyOrders(w.pending)|;
    if taken < 3 then 3 - taken else 1
  }

  lemma PlacesAreSlots(w: World, c: Ctx, desk: Desk)
    requires Coupled(w, c, desk)
    ensures FreeSlots(w.account) == Places(w)
  {
    forall id ensures id in BuyReservations(w.account.reservations) <==> id in BuyOrders(w.pending) {
      if id in w.pending {
        assert SymbolCoupled(w, c, desk, id.symbol);
      }
    }
    assert BuyReservations(w.account.reservations) == BuyOrders(w.pending);
  }

  /** The loss at the stop on `n` shares. */
  function AtRisk(n: int, price: real, stopLossBps: int): real {
    n as real * (price * stopLossBps as real / 10000.0)
  }

  /** `n` shares fit the cash of one place and, when sizing by risk, lose at most half a percent of
      the equity at the stop. */
  ghost predicate Fits(w: World, c: Ctx, price: real, n: int) {
    && Covered(w.account)
    && Paid(n, Adverse(price, Buy, Costs(c.scenario)), 0.0) <= AvailableCash(w.account).value / Places(w) as real
    && (c.rules.sizing.EqualRisk? ==> AtRisk(n, price, c.rules.stopLossBps) <= Equity(w.account) * 0.005)
  }

  /** The greatest number of shares that fit. */
  ghost predicate Largest(w: World, c: Ctx, price: real, n: int) {
    n > 0 && Fits(w, c, price, n) && forall m :: m > n ==> !Fits(w, c, price, m)
  }

  // ----- The new order -----

  /** An order signalled at `id.signalTime`, eligible a minute later; a limit stands the impact away
      from the reference price. */
  function Ordered(c: Ctx, id: OrderId, price: real, quantity: int): PendingOrder {
    var limit := if c.rules.orderType.Limit? then Some(Adverse(price, id.side, Costs(c.scenario))) else None;
    PendingOrder(Intent(id, c.rules.orderType, quantity, limit, id.signalTime + 1), price, false)
  }

  /** One more working order: a buy has its worst cost reserved, a sell promises its shares. */
  ghost predicate Placed(w: World, v: World, c: Ctx, id: OrderId, price: real, quantity: int) {
    var order := Ordered(c, id, price, quantity);
    var cash := if id.side.Buy? then Paid(quantity, Adverse(price, Buy, Costs(c.scenario)), 0.0) else 0.0;
    && id !in w.pending && v.pending == w.pending[id := order]
    && v.intents == w.intents + [order.intent]
    && v.account ==
       w.account.(reservations := w.account.reservations[id := Reservation(id.symbol, id.side, quantity, cash)])
    && v.openTrades == w.openTrades && v.trades == w.trades
  }

  ghost predicate NothingPlaced(w: World, v: World) {
    && v.pending == w.pending && v.intents == w.intents && v.account == w.account
    && v.openTrades == w.openTrades && v.trades == w.trades
  }

  // ----- The decision -----

  ghost predicate MayEnter(w: World, c: Ctx, now: int, s: Symbol, enters: bool) {
    Free(w, c, s, now) && Entries(w, c) < c.rules.maxEntries && enters
  }

  ghost predicate Buys(w: World, c: Ctx, now: int, s: Symbol, price: real, enters: bool) {
    MayEnter(w, c, now, s, enters) && price > 0.0 && Fits(w, c, price, 1)
  }

  /** A row buys the largest quantity that fits, sells the whole position, or places nothing. */
  ghost predicate RowEffect(w: World, v: World, c: Ctx, now: int, s: Symbol, price: real, enters: bool, exits: bool) {
    if Buys(w, c, now, s, price, enters) then
      exists n :: Largest(w, c, price, n) && Placed(w, v, c, OrderId(c.session, EntrySignal, Buy, now, s), price, n)
    else if Resting(w, s) && exits && price > 0.0 then
      Placed(w, v, c, OrderId(c.session, ExitSignal, Sell, now, s), price, w.account.positions[s].quantity)
    else NothingPlaced(w, v)
  }

  /** The exception a row leads to although the cash covers the reservations: an entry at a price of
      zero, or an exit by a limit order at a price that is not positive. */
  ghost function RowCrash(w: World, c: Ctx, now: int, s: Symbol, price: real, enters: bool, exits: bool)
    : Option<Crash>
  {
    if MayEnter(w, c, now, s, enters) && price == 0.0 then Some(DivisionByZero)
    else if Resting(w, s) && exits && c.rules.orderType.Limit? && price <= 0.0 then Some(InvalidIntent)
    else None
  }

  // ----- Runtime states do not matter -----

  lemma SameChances(w: World, v: World, c: Ctx, now: int, s: Symbol)
    requires v == w.(states := v.states)
    ensures Free(v, c, s, now) == Free(w, c, s, now) && Resting(v, s) == Resting(w, s) && Entries(v, c) == Entries(w, c)
  {}

  lemma SameFits(w: World, v: World, c: Ctx, price: real, n: int)
    requires v == w.(states := v.states)
    ensures Fits(v, c, price, n) == Fits(w, c, price, n)
  {}

  lemma SameLargest(w: World, v: World, c: Ctx, price: real, n: int)
    requires v == w.(states := v.states)
    ensures Largest(v, c, price, n) == Largest(w, c, price, n)
  {
    forall m ensures Fits(v, c, price, m) == Fits(w, c, price, m) {
      SameFits(w, v, c, price, m);
    }
  }

  lemma SamePlaced(w: World, v: World, after: World, c: Ctx, id: OrderId, price: real, n: int)
    requires v == w.(states := v.states)
    ensures Placed(v, after, c, id, price, n) == Placed(w, after, c, id, price, n)
    ensures NothingPlaced(v, after) == NothingPlaced(w, after)
  {}

  lemma SameEffect(w: World, v: World, after: World, c: Ctx, now: int, s: Symbol, price: real, enters: bool,
                   exits: bool)
    requires v == w.(states := v.states) && RowEffect(v, after, c, now, s, price, enters, exits)
    ensures RowEffect(w, after, c, now, s, price, enters, exits)
  {
    var buy, sell := OrderId(c.session, EntrySignal, Buy, now, s), OrderId(c.session, ExitSignal, Sell, now, s);
    SameChances(w, v, c, now, s);
    SameFits(w, v, c, price, 1);
    if Buys(v, c, now, s, price, enters) {
      var n :| Largest(v, c, price, n) && Placed(v, after, c, buy, price, n);
      SameLargest(w, v, c, price, n);
      SamePlaced(w, v, after, c, buy, price, n);
    } else if Resting(v, s) {
      SamePlaced(w, v, after, c, sell, price, w.account.positions[s].quantity);
    } else {
      SamePlaced(w, v, after, c, sell, price, 0);
    }
  }
}
