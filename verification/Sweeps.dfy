/** The risk exits of a minute, over all held symbols in any order. */
module Sweeps {
  import opened Wrappers
  import opened Accounts
  import opened AccountLaws
  import opened Orders
  import opened Engine
  import opened Decisions
  import opened MinuteLaws

  /** What the risk exits did to the orders of one held symbol. */
  ghost predicate Swept(w: World, pending: map<OrderId, PendingOrder>, c: Ctx, now: int, s: Symbol, close: real)
    requires s in w.account.positions && s in w.openTrades && w.account.positions[s].averageCost > 0.0
  {
    var reason := Reached(w, c, now, s, close);
    var sells := Resting(w, s) && reason.Some?;
    forall id: OrderId :: id.symbol == s ==>
      Lookup(pending, id) ==
      if sells && id == OrderId(c.session, reason.value, Sell, now + 1, s) then
        Some(Ordered(c, id, close, w.account.positions[s].quantity))
      else Lookup(w.pending, id)
  }

  /** Each held symbol outside `todo` is swept, the orders of every other one are as they were. */
  ghost predicate AllSwept(w: World, pending: map<OrderId, PendingOrder>, c: Ctx, now: int, bars: map<Symbol, Bar>,
                           todo: set<Symbol>) {
    forall s :: if s in w.account.positions && s !in todo then
                  s in bars && s in w.openTrades && w.account.positions[s].averageCost > 0.0 &&
                  Swept(w, pending, c, now, s, bars[s].close)
                else SameOrders(w.pending, pending, s)
  }

  ghost predicate SameOrders(before: map<OrderId, PendingOrder>, after: map<OrderId, PendingOrder>, s: Symbol) {
    forall id: OrderId :: id.symbol == s ==> Lookup(after, id) == Lookup(before, id)
  }

  /** One symbol has been swept in a world that differs from the first one only in other symbols' orders. */
  lemma SweptStep(start: World, w: World, v: World, c: Ctx, now: int, bars: map<Symbol, Bar>, todo: set<Symbol>,
                  s: Symbol)
    requires AllSwept(start, w.pending, c, now, bars, todo) && s in todo && s in bars
    requires w.account.positions == start.account.positions && w.openTrades == start.openTrades
    requires s in w.account.positions && s in w.openTrades && w.account.positions[s].averageCost > 0.0
    requires RiskEffect(w, v, c, now, s, bars[s].close)
    ensures AllSwept(start, v.pending, c, now, bars, todo - {s})
  {
    assert SameOrders(start.pending, w.pending, s);
    SameRest(start, w, s);
    assert Reached(w, c, now, s, bars[s].close) == Reached(start, c, now, s, bars[s].close);
    assert Swept(start, v.pending, c, now, s, bars[s].close);
    forall x | x != s ensures SameOrders(w.pending, v.pending, x) {}
    forall x | x != s && x in start.account.positions && x !in todo
      ensures Swept(start, v.pending, c, now, x, bars[x].close)
    {
      assert Swept(start, w.pending, c, now, x, bars[x].close) && SameOrders(w.pending, v.pending, x);
    }
    forall x | x != s && !(x in start.account.positions && x !in todo) ensures SameOrders(start.pending, v.pending, x) {
      assert SameOrders(start.pending, w.pending, x) && SameOrders(w.pending, v.pending, x);
    }
  }

  lemma SameRest(start: World, w: World, s: Symbol)
    requires SameOrders(start.pending, w.pending, s) && w.account.positions == start.account.positions
    ensures Resting(w, s) == Resting(start, s)
  {
    forall id: OrderId | id.symbol == s ensures id in w.pending <==> id in start.pending {
      assert Lookup(w.pending, id) == Lookup(start.pending, id);
    }
  }
}
