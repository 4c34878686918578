/** Time: entries and exits in order, the cooldown after every exit, and at most
    `max_entries_per_session` entries.  Again a property of one symbol at a time. */
module Pacing {
  import opened Accounts
  import opened Phases
  import opened Orders
  import opened Engine
  import opened Coupling

  function TradesOf(trades: seq<Trade>, s: Symbol, session: int): nat
    decreases |trades|
  {
    if trades == [] then 0
    else
      var last := trades[|trades| - 1];
      TradesOf(trades[..|trades| - 1], s, session) + (if last.symbol == s && last.session == session then 1 else 0)
  }

  /** The cooldown of every trade of `s` in this session is over by `from`. */
  ghost predicate RestedBy(trades: seq<Trade>, c: Ctx, s: Symbol, from: int) {
    forall i :: 0 <= i < |trades| && trades[i].symbol == s && trades[i].session == c.session ==>
      trades[i].exitTime + c.rules.cooldownMinutes <= from
  }

  /** The latest of those cooldowns ends at `until`. */
  ghost predicate RestsUntil(trades: seq<Trade>, c: Ctx, s: Symbol, until: int) {
    && RestedBy(trades, c, s, until)
    && exists i :: 0 <= i < |trades| && trades[i].symbol == s && trades[i].session == c.session &&
                   trades[i].exitTime + c.rules.cooldownMinutes == until
  }

  ghost predicate SymbolPaced(w: World, c: Ctx, desk: Desk, s: Symbol, now: int) {
    var state := State(w, c, s);
    && state.entries == TradesOf(w.trades, s, c.session) + (if s in w.openTrades then 1 else 0)
    && match state.phase
       case Flat => RestedBy(w.trades, c, s, now)
       case EntryPending =>
         s in desk && c.opens <= desk[s].signalTime <= now && RestedBy(w.trades, c, s, desk[s].signalTime)
       case Long => EnteredInTime(w, c, s, now)
       case ExitPending => EnteredInTime(w, c, s, now) && s in desk && w.openTrades[s].entryTime <= desk[s].signalTime
       case Cooldown => state.cooldownUntil.Some? && RestsUntil(w.trades, c, s, state.cooldownUntil.value)
       case SessionClosed => true
  }

  ghost predicate EnteredInTime(w: World, c: Ctx, s: Symbol, now: int) {
    && s in w.openTrades
    && c.opens < w.openTrades[s].entryTime <= now
    && RestedBy(w.trades, c, s, w.openTrades[s].entryTime - 1)
  }

  ghost predicate Paced(w: World, c: Ctx, desk: Desk, now: int) {
    forall s :: SymbolPaced(w, c, desk, s, now)
  }

  /** A finished trade: bought, then sold later, for all of it.  Net profit is the difference of the two
      prices, the cost is the impact in both, and gross adds it back. */
  predicate TradeOk(t: Trade, scenario: Scenario) {
    && t.quantity > 0 && t.entryTime < t.exitTime && t.entryPrice > 0.0 && t.exitPrice > 0.0
    && t.netPnl == Gain(t.quantity, t.exitPrice, t.entryPrice, 0.0)
    && t.costPaid ==
       ImpactPaid(t.quantity, t.entryPrice, Buy, scenario) + ImpactPaid(t.quantity, t.exitPrice, Sell, scenario)
    && t.grossPnl == t.netPnl + t.costPaid
  }

  /** Inside the hours; exactly the forced exits happen at the closeout. */
  predicate Within(t: Trade, window: Window) {
    window.opens < t.entryTime && t.exitTime <= window.closeout && (t.forced <==> t.exitTime == window.closeout)
  }

  /** Every trade lies between the opening minute and the closeout of its own session. */
  predicate InSession(t: Trade, c: Ctx) {
    if t.session == c.session then Within(t, Window(c.opens, c.closeout))
    else t.session in c.past && Within(t, c.past[t.session])
  }

  function SessionTrades(trades: seq<Trade>, session: int): int {
    TradesOf(trades, SPY, session) + TradesOf(trades, QQQ, session) + TradesOf(trades, IWM, session)
  }

  /** The next entry of the same symbol in the same session comes after exit plus cooldown. */
  predicate Apart(first: Trade, second: Trade, cooldownMinutes: int) {
    first.symbol == second.symbol && first.session == second.session ==>
      first.exitTime + cooldownMinutes < second.entryTime
  }

  ghost predicate TradesOk(trades: seq<Trade>, c: Ctx) {
    && (forall i :: 0 <= i < |trades| ==> TradeOk(trades[i], c.scenario) && InSession(trades[i], c))
    && (forall i, j :: 0 <= i < j < |trades| ==> Apart(trades[i], trades[j], c.rules.cooldownMinutes))
    && c.session !in c.past
    && (forall d :: d in c.past ==> SessionTrades(trades, d) <= c.rules.maxEntries)
  }

  /** Nothing about the trades of `s` differs. */
  predicate SameTrades(before: seq<Trade>, after: seq<Trade>, s: Symbol) {
    after == before || (|after| > 0 && after[|after| - 1].symbol != s && after[..|after| - 1] == before)
  }

  lemma TradesOfGrows(trades: seq<Trade>, t: Trade, s: Symbol, session: int)
    ensures TradesOf(trades + [t], s, session) ==
            TradesOf(trades, s, session) + (if t.symbol == s && t.session == session then 1 else 0)
  {
    assert (trades + [t])[..|trades|] == trades;
  }

  lemma SessionTradesGrow(trades: seq<Trade>, t: Trade, session: int)
    ensures SessionTrades(trades + [t], session) ==
            SessionTrades(trades, session) + (if t.session == session then 1 else 0)
  {
    TradesOfGrows(trades, t, SPY, session);
    TradesOfGrows(trades, t, QQQ, session);
    TradesOfGrows(trades, t, IWM, session);
    assert t.symbol == SPY || t.symbol == QQQ || t.symbol == IWM;
  }

  lemma SameStaysPaced(w: World, v: World, c: Ctx, desk: Desk, later: Desk, s: Symbol, now: int)
    requires SymbolPaced(w, c, desk, s, now)
    requires State(v, c, s) == State(w, c, s)
    requires Lookup(v.openTrades, s) == Lookup(w.openTrades, s) && Lookup(later, s) == Lookup(desk, s)
    requires SameTrades(w.trades, v.trades, s)
    ensures SymbolPaced(v, c, later, s, now)
  {
    if v.trades != w.trades {
      assert v.trades == w.trades + [v.trades[|v.trades| - 1]];
    }
    assert s in v.openTrades <==> s in w.openTrades;
    assert s in later <==> s in desk;
  }

  lemma PacedLater(w: World, c: Ctx, desk: Desk, now: int, later: int)
    requires Paced(w, c, desk, now) && now <= later
    ensures Paced(w, c, desk, later)
  {
    forall s ensures SymbolPaced(w, c, desk, s, later) {
      assert SymbolPaced(w, c, desk, s, now);
    }
  }
}
