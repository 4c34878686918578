/** The agreement between runtime phase, working order, reservation, position and open trade of
    each symbol.  It is a property of one symbol at a time, so a step has to restore it only for
    the symbol it touches. */
module Coupling {
  import opened Wrappers
  import opened Accounts
  import opened AccountLaws
  import opened Phases
  import opened Orders
  import opened Engine

  /** The working order of each symbol that has one. */
  type Desk = map<Symbol, OrderId>

  predicate Unheld(w: World, s: Symbol) {
    s !in w.account.positions && s !in w.openTrades
  }

  /** Held, with an open trade of the same size, price and impact, opened when the runtime says. */
  predicate HeldSince(w: World, c: Ctx, s: Symbol, openedAt: Option<int>) {
    && s in w.account.positions && s in w.openTrades
    && w.openTrades[s].quantity == w.account.positions[s].quantity
    && w.openTrades[s].entryPrice == w.account.positions[s].averageCost > 0.0
    && w.openTrades[s].entryCost == ImpactPaid(w.openTrades[s].quantity, w.openTrades[s].entryPrice, Buy, c.scenario)
    && w.openTrades[s].session == c.session
    && openedAt == Some(w.openTrades[s].entryTime)
  }

  /** An order as the engine submits it: limits stand the impact away from the reference price, the
      closeout forces market orders, and a limit buy reserves exactly what it would cost. */
  predicate Ticket(p: PendingOrder, r: Reservation<Symbol>, c: Ctx, id: OrderId) {
    && p.intent.eligibleTime == id.signalTime + 1
    && p.referencePrice > 0.0
    && (p.forced <==> id.reason.SessionClose?)
    && (p.forced ==> id.signalTime == c.closeout - 1)
    && p.intent.orderType == (if p.forced then Market else c.rules.orderType)
    && (p.intent.orderType.Limit? ==>
          p.intent.limitPrice == Some(Adverse(p.referencePrice, id.side, Costs(c.scenario))))
    && (id.side.Buy? ==> id.reason.EntrySignal?)
    && (id.side.Buy? && c.rules.orderType.Limit? ==>
          p.intent.limitPrice.Some? && r.reservedCash == Paid(p.intent.quantity, p.intent.limitPrice.value, 0.0))
  }

  /** `id` is a working order of symbol `s` with its reservation. */
  predicate WorkingOrder(w: World, c: Ctx, id: OrderId, s: Symbol, side: Side) {
    && id in w.pending && id in w.account.reservations
    && id.symbol == s && id.side == side && id.session == c.session
    && w.pending[id].intent.id == id && w.pending[id].intent.Valid()
    && w.account.reservations[id].symbol == s
    && w.account.reservations[id].side == side
    && w.account.reservations[id].remaining == w.pending[id].intent.quantity
    && Ticket(w.pending[id], w.account.reservations[id], c, id)
  }

  /** FLAT and COOLDOWN have neither order nor position, ENTRY_PENDING has one buy, LONG has a
      position, and EXIT_PENDING adds one sell for all of it. */
  predicate SymbolCoupled(w: World, c: Ctx, desk: Desk, s: Symbol) {
    var state := State(w, c, s);
    if s !in c.rules.symbols then state == INITIAL && Unheld(w, s) && s !in desk
    else if !state.Valid() then false
    else
      match state.phase
      case Flat | Cooldown => Unheld(w, s) && s !in desk
      case EntryPending => Unheld(w, s) && s in desk && WorkingOrder(w, c, desk[s], s, Buy)
      case Long => HeldSince(w, c, s, state.openedAt) && s !in desk
      case ExitPending =>
        && HeldSince(w, c, s, state.openedAt) && s in desk && WorkingOrder(w, c, desk[s], s, Sell)
        && w.pending[desk[s]].intent.quantity == w.account.positions[s].quantity
      case SessionClosed => false
  }

  /** Every working order is the one its symbol has on the desk, and has a reservation. */
  ghost predicate DeskComplete(w: World, desk: Desk) {
    && (forall id :: id in w.pending <==> id in w.account.reservations)
    && (forall id :: id in w.pending ==> id.symbol in desk && desk[id.symbol] == id && id in w.intentKeys)
  }

  ghost predicate Coupled(w: World, c: Ctx, desk: Desk) {
    DeskComplete(w, desk) && forall s :: SymbolCoupled(w, c, desk, s)
  }

  /** No runtime state of another session appears. */
  ghost predicate SameSessions(w: World, v: World, c: Ctx) {
    forall k :: k in v.states ==> k in w.states || k.session == c.session
  }

  /** Every runtime state belongs to this session or to one before it. */
  ghost predicate Known(w: World, c: Ctx) {
    forall k :: k in w.states ==> k.session == c.session || k.session in c.past
  }

  lemma StaysKnown(w: World, v: World, c: Ctx)
    requires Known(w, c) && SameSessions(w, v, c)
    ensures Known(v, c)
  {}

  /** Nothing about symbol `s` differs between `w` and `v`. */
  ghost predicate SameFor(w: World, v: World, c: Ctx, desk: Desk, later: Desk, s: Symbol) {
    && State(v, c, s) == State(w, c, s)
    && Lookup(v.account.positions, s) == Lookup(w.account.positions, s)
    && Lookup(v.openTrades, s) == Lookup(w.openTrades, s)
    && Lookup(later, s) == Lookup(desk, s)
    && (forall id: OrderId :: id.symbol == s ==> (
          && Lookup(v.pending, id) == Lookup(w.pending, id)
          && Lookup(v.account.reservations, id) == Lookup(w.account.reservations, id)))
  }

  lemma SameStaysCoupled(w: World, v: World, c: Ctx, desk: Desk, later: Desk, s: Symbol)
    requires SameFor(w, v, c, desk, later, s) && SymbolCoupled(w, c, desk, s)
    ensures SymbolCoupled(v, c, later, s)
  {
    assert s in v.account.positions <==> s in w.account.positions;
    assert s in v.openTrades <==> s in w.openTrades;
    if s in desk {
      assert Lookup(later, s) == Some(desk[s]);
      assert desk[s].symbol == s ==> Lookup(v.pending, desk[s]) == Lookup(w.pending, desk[s]);
    }
  }
}
