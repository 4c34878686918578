/** The run of one cost scenario: mutable state and the minute loop.  Sorting working orders by
    their digest is modelled as an arbitrary order, so what is proved holds for every order. */
module Scenarios {
  import opened Wrappers
  import opened Accounts
  import opened AccountLaws
  import opened CashCover
  import opened Phases
  import opened Orders
  import opened Engine
  import opened Coupling
  import opened Books
  import opened FillLaws
  import opened StepLaws
  import opened Decisions
  import opened SignalLaws
  import opened MinuteLaws
  import opened SessionLaws
  import opened Rows
  import opened Sweeps
  import opened Stages
  import opened Dates
  import P = Portfolios
  import R = Runtimes

  class ScenarioRun {
    const portfolio: P.Portfolio<Symbol, OrderId>
    const runtime: R.StrategyRuntime<RuntimeKey>
    var pending: map<OrderId, PendingOrder>
    var openTrades: map<Symbol, OpenTrade>
    var trades: seq<Trade>
    var intentKeys: set<OrderId>
    var intents: seq<Intent>
    ghost var desk: Desk

    ghost function View(): World
      reads this, portfolio, runtime
    {
      World(portfolio.View(), runtime.states, pending, openTrades, trades, intentKeys, intents)
    }

    constructor (initialCash: real)
      requires initialCash > 0.0
      ensures fresh(portfolio) && fresh(runtime)
      ensures View() == World(Open(initialCash, MAX_POSITIONS), map[], map[], map[], [], {}, []) && desk == map[]
    {
      portfolio := new P.Portfolio(initialCash, MAX_POSITIONS);
      runtime := new R.StrategyRuntime();
      pending := map[];
      openTrades := map[];
      trades := [];
      intentKeys := {};
      intents := [];
      desk := map[];
    }

    /** Record the signal and move to the pending phase. */
    method Announce(c: Ctx, id: OrderId) returns (r: Result<(), Crash>)
      modifies runtime
      ensures match Signalled(State(old(View()), c, id.symbol), id.side, id.signalTime)
              case Success(state) => r == Success(()) && View() == Put(old(View()), c, id.symbol, state)
              case Failure(e) => r == Failure(e)
    {
      var key := RuntimeKey(id.symbol, c.session);
      var signalled := runtime.RecordSignal(key, if id.side.Buy? then EnterLong else ExitLong, id.signalTime);
      if signalled.Failure? { return Failure(RuntimeCrash(signalled.error)); }
      var moved := runtime.Transition(key, if id.side.Buy? then EntryPending else ExitPending);
      if moved.Failure? { return Failure(RuntimeCrash(moved.error)); }
      return Success(());
    }

    method Submit(c: Ctx, id: OrderId, price: real, quantity: int, forced: bool) returns (r: Result<(), Crash>)
      modifies this, portfolio, runtime
      ensures Took(Engine.Submit(old(View()), c, id, price, quantity, forced), r, View())
    {
      r := Announce(c, id);
      if r.Failure? || id in intentKeys { return; }
      var intent := MakeIntent(c, id, price, quantity, forced);
      if !intent.Valid() { return Failure(InvalidIntent); }
      var reserved := portfolio.ReserveOrder(id, id.symbol, id.side, quantity,
                                             Adverse(price, id.side, Costs(c.scenario)),
                                             Fees(quantity, Costs(c.scenario)));
      if reserved.Failure? {
        var rejected := runtime.OrderRejected(RuntimeKey(id.symbol, c.session));
        assert rejected.Success?;
        return Success(());
      }
      intentKeys := intentKeys + {id};
      intents := intents + [intent];
      pending := pending[id := PendingOrder(intent, price, forced)];
    }

    method SlotsUsed(c: Ctx) returns (used: int)
      ensures used == Engine.SlotsUsed(View(), c)
    {
      used := |BuyOrders(pending)|;
      var rest := c.rules.symbols;
      while rest != {}
        invariant rest <= c.rules.symbols
        invariant used == |BuyOrders(pending)| + Counted(c, c.rules.symbols - rest)
        decreases rest
      {
        var s :| s in rest;
        match s { case SPY => case QQQ => case IWM => }
        used := used + StateFor(runtime.states, RuntimeKey(s, c.session)).entries;
        rest := rest - {s};
      }
    }

    /** Filled entries of the symbols already visited. */
    ghost function Counted(c: Ctx, visited: set<Symbol>): int
      reads this, portfolio, runtime
    {
      (if SPY in visited then State(View(), c, SPY).entries else 0) +
      (if QQQ in visited then State(View(), c, QQQ).entries else 0) +
      (if IWM in visited then State(View(), c, IWM).entries else 0)
    }

    method EntryQuantity(c: Ctx, price: real) returns (r: Result<int, Crash>)
      requires c.rules.Valid()
      ensures r == Engine.EntryQuantity(portfolio.View(), c, price)
    {
      var available := portfolio.Available();
      if available.Failure? { return Failure(AccountCrash(available.error)); }
      if price == 0.0 { return Failure(DivisionByZero); }
      AdverseNonZero(price, Buy, c.scenario);
      var occupied := |portfolio.positions| + |BuyReservations(portfolio.reservations)|;
      var slots := if occupied < MAX_POSITIONS then MAX_POSITIONS - occupied else 1;
      var quantity := CashQuantity(available.value, slots, Adverse(price, Buy, Costs(c.scenario)));
      if c.rules.sizing.EqualRisk? {
        var equity := portfolio.Equity();
        var risk := RiskQuantity(equity, price, c.rules.stopLossBps);
        quantity := if risk < quantity then risk else quantity;
      }
      return Success(if quantity < 0 then 0 else quantity);
    }

    method OnSignal(c: Ctx, now: int, row: SignalRow) returns (r: Result<(), Crash>)
      requires c.rules.Valid()
      modifies this, portfolio, runtime
      ensures Took(Engine.OnSignal(old(View()), c, now, row.symbol, row.price, row.enters, row.exits), r, View())
    {
      var key := RuntimeKey(row.symbol, c.session);
      var state := StateFor(runtime.states, key);
      if state.phase.Cooldown? && !CooldownActive(state, now) {
        var rested := runtime.CompleteCooldown(key, now);
        if rested.Failure? { return Failure(RuntimeCrash(rested.error)); }
      }
      state := StateFor(runtime.states, key);
      var used := SlotsUsed(c);
      if state.phase.Flat? && used < c.rules.maxEntries && row.enters {
        var quantity := EntryQuantity(c, row.price);
        if quantity.Failure? { return Failure(quantity.error); }
        if quantity.value > 0 {
          r := Submit(c, OrderId(c.session, EntrySignal, Buy, now, row.symbol), row.price, quantity.value, false);
          return;
        }
      } else if state.phase.Long? && row.exits {
        if row.symbol !in portfolio.positions { return Failure(MissingPosition); }
        r := Submit(c, OrderId(c.session, ExitSignal, Sell, now, row.symbol), row.price,
                    portfolio.positions[row.symbol].quantity, false);
        return;
      }
      return Success(());
    }

    method Drop(c: Ctx, id: OrderId) returns (r: Result<(), Crash>)
      requires id in pending
      modifies this, portfolio, runtime
      ensures Took(Dropped(old(View()), c, id), r, View())
    {
      var cancelled := portfolio.CancelOrder(id);
      if cancelled.Failure? { return Failure(AccountCrash(cancelled.error)); }
      var rejected := runtime.OrderRejected(RuntimeKey(id.symbol, c.session));
      if rejected.Failure? { return Failure(RuntimeCrash(rejected.error)); }
      pending := pending - {id};
      return Success(());
    }

    method ApplyFill(c: Ctx, id: OrderId, bar: Bar, now: int, price: real) returns (r: Result<(), Crash>)
      requires id in pending
      modifies this, portfolio, runtime
      ensures Took(FilledAt(old(View()), c, id, bar, now, price), r, View())
    {
      var order := pending[id];
      var fees := Fees(order.intent.quantity, Costs(c.scenario));
      var cost := FillCost(order, bar, price, fees);
      var closing := Lookup(portfolio.positions, id.symbol);
      var key := RuntimeKey(id.symbol, c.session);
      var filled := portfolio.ApplyFill(id, order.intent.quantity, price, fees, ExitReasonOf(id));
      if filled.Failure? {
        r := Drop(c, id);
        return;
      }
      if id.side.Buy? {
        var entered := runtime.EntryFilled(key, now);
        if entered.Failure? { return Failure(RuntimeCrash(entered.error)); }
        openTrades := openTrades[id.symbol := OpenTrade(c.session, order.intent.quantity, now, price, cost)];
      } else {
        if closing.None? { return Failure(SellWithoutPosition); }
        var exited := runtime.ExitFilled(key, now, c.rules.cooldownMinutes);
        if exited.Failure? { return Failure(RuntimeCrash(exited.error)); }
        if id.symbol !in openTrades { return Failure(MissingOpenTrade); }
        var gain := Gain(order.intent.quantity, price, closing.value.averageCost, fees);
        trades := trades + [TradeOf(c, id, order, openTrades[id.symbol], now, price, gain, cost)];
        openTrades := openTrades - {id.symbol};
      }
      pending := pending - {id};
      return Success(());
    }

    method OnRisk(c: Ctx, now: int, s: Symbol, close: real) returns (r: Result<(), Crash>)
      requires s in portfolio.positions && portfolio.positions[s].averageCost > 0.0
      modifies this, portfolio, runtime
      ensures Took(Engine.OnRisk(old(View()), c, now, s, close), r, View())
    {
      var state := StateFor(runtime.states, RuntimeKey(s, c.session));
      if !state.phase.Long? { return Success(()); }
      var holding := HoldingMinutes(state, now + 1);
      if holding.Failure? { return Failure(RuntimeCrash(holding.error)); }
      var position := portfolio.positions[s];
      var reason := RiskReason(c.rules, close, position.averageCost, holding.value);
      if reason.None? { return Success(()); }
      r := Submit(c, OrderId(c.session, reason.value, Sell, now + 1, s), close, position.quantity, false);
    }

    // ----- One minute -----

    /** A working order meets its bar: untouched it stays, touched it fills at its price. */
    method ProcessOrder(c: Ctx, now: int, id: OrderId, bar: Bar) returns (r: Result<(), Crash>)
      requires Steady(View(), c, desk, now) && id in pending && bar.Valid()
      requires now <= c.closeout && (now == c.closeout ==> pending[id].forced)
      modifies this, portfolio, runtime
      ensures r.Success? && BarDone(old(View()), View(), c, old(desk), desk, id, bar, now)
    {
      OrderAndBar(View(), c, desk, id, bar, now);
      ghost var after := OnBar(View(), c, id, bar, now).value;
      ghost var later := if Touched(pending[id].intent, bar, now) then desk - {id.symbol} else desk;
      var price := FillPrice(pending[id].intent, bar, now, Costs(c.scenario));
      if price.None? { return Success(()); }
      r := ApplyFill(c, id, bar, now, price.value);
      assert View() == after;
      desk := later;
    }

    /** Working orders meet the bars of the minute, in any order.  Exactly those that are eligible and
        touched leave the desk. */
    method ProcessOrders(c: Ctx, now: int, bars: map<Symbol, Bar>) returns (r: Result<(), Crash>)
      requires Steady(View(), c, desk, now)
      requires BarsOk(c, bars)
      requires (now <= c.closeout && (now == c.closeout ==> AllForced(pending, c))) || pending == map[]
      modifies this, portfolio, runtime
      ensures r.Success? && Steady(View(), c, desk, now)
      ensures BarKeeps(old(View()), View(), c) && intentKeys == old(intentKeys)
      ensures old(Winding(View(), desk)) ==> Winding(View(), desk)
      ensures Remain(old(pending), pending, {}, c, now, bars)
    {
      var todo := pending.Keys;
      r := Success(());
      while todo != {}
        invariant r.Success? && Steady(View(), c, desk, now)
        invariant BarKeeps(old(View()), View(), c) && intentKeys == old(intentKeys)
        invariant old(Winding(View(), desk)) ==> Winding(View(), desk)
        invariant Remain(old(pending), pending, todo, c, now, bars)
        decreases todo
      {
        var id :| id in todo;
        OrderFacts(View(), c, desk, id);
        ghost var before := pending;
        r := ProcessOrder(c, now, id, bars[id.symbol]);
        RemainStep(old(pending), before, todo, c, now, bars, id, pending);
        todo := todo - {id};
      }
    }

    /** A row of a traded symbol raises exactly when `RowCrash` says, and else places what it decides:
        the largest buy that fits, a sell of the whole position, or nothing. */
    method Signal(c: Ctx, now: int, row: SignalRow, ghost todo: set<Symbol>) returns (r: Result<(), Crash>)
      requires Steady(View(), c, desk, now) && c.opens <= now && row.symbol in c.rules.symbols
      requires Fresh(intentKeys, c.session, SignalFamily, now, todo) && row.symbol in todo
      requires Covered(portfolio.View())
      modifies this, portfolio, runtime
      ensures match RowCrash(old(View()), c, now, row.symbol, row.price, row.enters, row.exits)
              case Some(e) => r == Failure(e) && PriceCrash(e) && row.Mispriced(c.rules)
              case None =>
                && r.Success? && RowDone(old(View()), View(), c, desk, now, row.symbol)
                && RowEffect(old(View()), View(), c, now, row.symbol, row.price, row.enters, row.exits)
    {
      ghost var later := OnSignalSteady(View(), c, desk, now, row.symbol, row.price, row.enters, row.exits, todo);
      ghost var step := Engine.OnSignal(View(), c, now, row.symbol, row.price, row.enters, row.exits);
      r := OnSignal(c, now, row);
      desk := later;
      assert r.Success? ==> View() == step.value;
    }

    /** One row; rows of symbols that are not traded are passed over. */
    method OneRow(c: Ctx, now: int, rows: seq<SignalRow>, i: nat, ghost next: nat) returns (r: Result<(), Crash>)
      requires Steady(View(), c, desk, now) && c.opens <= now && RowsOk(rows) && i < |rows| && next == i + 1
      requires Fresh(intentKeys, c.session, SignalFamily, now, Upcoming(rows[i..])) && Covered(portfolio.View())
      modifies this, portfolio, runtime
      ensures r.Failure? ==> PriceCrash(r.error) && rows[i].Mispriced(c.rules)
      ensures r.Success? ==>
                && Fresh(intentKeys, c.session, SignalFamily, now, Upcoming(rows[next..]))
                && RowDone(old(View()), View(), c, desk, now, rows[i].symbol)
                && RowActs(old(View()), View(), c, now, rows[i])
    {
      UpcomingShrinks(rows, i);
      ghost var before := intentKeys;
      ghost var todo := Upcoming(rows[i..]);
      if rows[i].symbol !in c.rules.symbols { return Success(()); }
      assert rows[i] == rows[i..][0];
      r := Signal(c, now, rows[i], todo);
      if r.Failure? { return; }
      FreshAfter(before, intentKeys, c.session, SignalFamily, now, rows[i].symbol, todo);
    }

    /** The feature rows of one minute, one after the other; `trace` has the worlds between them. */
    method Signals(c: Ctx, now: int, rows: seq<SignalRow>) returns (r: Result<(), Crash>, ghost trace: seq<World>)
      requires Steady(View(), c, desk, now) && c.opens <= now && RowsOk(rows)
      requires Before(intentKeys, c.session, SignalFamily, now) && (rows != [] ==> Covered(portfolio.View()))
      modifies this, portfolio, runtime
      ensures r.Failure? ==> PriceCrash(r.error) && AnyMispriced(rows, c.rules)
      ensures r.Success? ==>
                && Steady(View(), c, desk, now) && SignalsKeep(old(View()), View(), now)
                && AddsOnly(old(intentKeys), intentKeys, c.session, SignalFamily, now)
                && (rows == [] ==> intentKeys == old(intentKeys))
                && Traced(trace, c, now, rows, |rows|) && trace[0] == old(View()) && trace[|rows|] == View()
                && (intents == [] ==> !AnyInvites(rows, |rows|, c, portfolio.initialCash))
    {
      var i := 0;
      r := Success(());
      trace := [View()];
      assert rows[0..] == rows;
      BeforeIsFresh(intentKeys, c.session, SignalFamily, now, Upcoming(rows));
      while i != |rows|
        invariant 0 <= i <= |rows| && r.Success?
        invariant Steady(View(), c, desk, now)
        invariant Fresh(intentKeys, c.session, SignalFamily, now, Upcoming(rows[i..]))
        invariant AddsOnly(old(intentKeys), intentKeys, c.session, SignalFamily, now)
        invariant SignalsKeep(old(View()), View(), now)
        invariant i == 0 ==> intentKeys == old(intentKeys)
        invariant Traced(trace, c, now, rows, i) && trace[0] == old(View()) && trace[i] == View()
        invariant intents == [] ==> !AnyInvites(rows, i, c, portfolio.initialCash)
        decreases |rows| - i
      {
        ghost var was, d := View(), desk;
        var next := i + 1;
        r := OneRow(c, now, rows, i, next);
        if r.Failure? { return; }
        AddsOnlyStep(old(intentKeys), was.intentKeys, intentKeys, c.session, SignalFamily, now, rows[i].symbol);
        TracedNext(trace, View(), c, now, rows, i, next);
        NextInvitation(was, View(), c, d, now, rows, i, next);
        trace := trace + [View()];
        i := next;
      }
    }

    /** Every position is marked to the close of the minute. */
    method MarkPositions(c: Ctx, now: int, bars: map<Symbol, Bar>) returns (r: Result<(), Crash>)
      requires Steady(View(), c, desk, now) && BarsOk(c, bars)
      modifies this, portfolio
      ensures r.Success? && Steady(View(), c, desk, now) && KeepsCover(old(View()), View())
      ensures intentKeys == old(intentKeys) && pending == old(pending)
      ensures MarkedTo(portfolio.positions, {}, bars) && (old(Done(View())) ==> Done(View()))
    {
      var todo := portfolio.positions.Keys;
      r := Success(());
      while todo != {}
        invariant r.Success? && Steady(View(), c, desk, now) && KeepsCover(old(View()), View())
        invariant intentKeys == old(intentKeys) && pending == old(pending)
        invariant MarkedTo(portfolio.positions, todo, bars) && (old(Done(View())) ==> Done(View()))
        decreases todo
      {
        var s :| s in todo;
        ghost var before := portfolio.positions;
        r := MarkPosition(c, now, s, bars);
        MarkedStep(before, todo, bars, s);
        todo := todo - {s};
      }
    }

    method MarkPosition(c: Ctx, now: int, s: Symbol, bars: map<Symbol, Bar>) returns (r: Result<(), Crash>)
      requires Steady(View(), c, desk, now) && s in portfolio.positions
      requires BarsOk(c, bars)
      modifies this, portfolio
      ensures r.Success? && Steady(View(), c, desk, now) && KeepsCover(old(View()), View())
      ensures intentKeys == old(intentKeys) && pending == old(pending) && s in bars
      ensures var marked := old(portfolio.positions)[s].(marketPrice := bars[s].close);
              portfolio.positions == old(portfolio.positions)[s := marked]
    {
      assert SymbolCoupled(View(), c, desk, s);
      OnMarkSteady(View(), c, desk, s, bars[s].close, now);
      ghost var after := OnMark(View(), s, bars[s].close).value;
      var marked := portfolio.MarkToMarket(s, bars[s].close);
      assert marked.Success?;
      assert View() == after;
      return Success(());
    }

    /** Cancel the working orders of one side, or of both. */
    method CancelWorking(c: Ctx, now: int, side: Option<Side>) returns (r: Result<(), Crash>)
      requires Steady(View(), c, desk, now)
      modifies this, portfolio, runtime
      ensures r.Success? && Steady(View(), c, desk, now) && KeepsCover(old(View()), View())
      ensures intentKeys == old(intentKeys) && Cancelled(old(pending), pending, {}, side)
      ensures portfolio.positions == old(portfolio.positions)
    {
      var todo := set id | id in pending && (side.None? || id.side == side.value);
      r := Success(());
      while todo != {}
        invariant r.Success? && Steady(View(), c, desk, now) && KeepsCover(old(View()), View())
        invariant intentKeys == old(intentKeys) && Cancelled(old(pending), pending, todo, side)
        invariant portfolio.positions == old(portfolio.positions)
        invariant forall id :: id in todo ==> side.None? || id.side == side.value
        decreases todo
      {
        var id :| id in todo;
        ghost var before := pending;
        r := CancelOne(c, now, id);
        CancelledStep(old(pending), before, todo, side, id);
        todo := todo - {id};
      }
    }

    method CancelOne(c: Ctx, now: int, id: OrderId) returns (r: Result<(), Crash>)
      requires Steady(View(), c, desk, now) && id in pending
      modifies this, portfolio, runtime
      ensures r.Success? && OneDropped(old(View()), View(), c, desk, id, now)
    {
      DroppedSteady(View(), c, desk, id, now);
      ghost var after := Dropped(View(), c, id).value;
      ghost var later := desk - {id.symbol};
      r := Drop(c, id);
      assert View() == after;
      desk := later;
    }

    /** Stop loss, take profit or holding time, for every long position: afterwards no position has
        reached a limit without being sold. */
    method RiskExits(c: Ctx, now: int, bars: map<Symbol, Bar>) returns (r: Result<(), Crash>)
      requires Steady(View(), c, desk, now) && Before(intentKeys, c.session, RiskFamily, now + 1)
      requires BarsOk(c, bars)
      modifies this, portfolio, runtime
      ensures r.Success? && Steady(View(), c, desk, now) && KeepsCover(old(View()), View())
      ensures AddsOnly(old(intentKeys), intentKeys, c.session, RiskFamily, now + 1)
      ensures Current(old(pending), now) ==> Current(pending, now)
      ensures AllGuarded(View(), c, desk, now, bars, {}) && AllSwept(old(View()), pending, c, now, bars, {})
    {
      var todo := portfolio.positions.Keys;
      r := Success(());
      BeforeIsFresh(intentKeys, c.session, RiskFamily, now + 1, todo);
      while todo != {}
        invariant r.Success? && Steady(View(), c, desk, now) && KeepsCover(old(View()), View())
        invariant Fresh(intentKeys, c.session, RiskFamily, now + 1, todo)
        invariant AddsOnly(old(intentKeys), intentKeys, c.session, RiskFamily, now + 1)
        invariant Current(old(pending), now) ==> Current(pending, now)
        invariant todo <= portfolio.positions.Keys
        invariant AllGuarded(View(), c, desk, now, bars, todo) && AllSwept(old(View()), pending, c, now, bars, todo)
        invariant portfolio.positions == old(portfolio.positions) && openTrades == old(openTrades)
        decreases todo
      {
        var s :| s in todo;
        ghost var before, was, d := intentKeys, View(), desk;
        r := RiskExit(c, now, s, bars, todo);
        GuardedStep(was, View(), c, d, desk, now, bars, todo, s);
        SweptStep(old(View()), was, View(), c, now, bars, todo, s);
        FreshAfter(before, intentKeys, c.session, RiskFamily, now + 1, s, todo);
        AddsOnlyStep(old(intentKeys), before, intentKeys, c.session, RiskFamily, now + 1, s);
        todo := todo - {s};
      }
    }

    method RiskExit(c: Ctx, now: int, s: Symbol, bars: map<Symbol, Bar>, ghost todo: set<Symbol>)
      returns (r: Result<(), Crash>)
      requires Steady(View(), c, desk, now) && s in portfolio.positions
      requires BarsOk(c, bars)
      requires Fresh(intentKeys, c.session, RiskFamily, now + 1, todo) && s in todo
      modifies this, portfolio, runtime
      ensures s in bars && s in old(openTrades) && old(portfolio.positions)[s].averageCost > 0.0
      ensures r.Success? && RiskDone(old(View()), View(), c, old(desk), desk, now, s, bars[s].close)
      ensures RiskEffect(old(View()), View(), c, now, s, bars[s].close)
    {
      assert SymbolCoupled(View(), c, desk, s);
      ghost var later := OnRiskSteady(View(), c, desk, now, s, bars[s].close, todo);
      ghost var after := Engine.OnRisk(View(), c, now, s, bars[s].close).value;
      r := OnRisk(c, now, s, bars[s].close);
      assert View() == after;
      desk := later;
    }

    // ----- Closeout -----

    /** The forced sell of one position. */
    method CloseOut(c: Ctx, now: int, s: Symbol, open: real) returns (r: Result<(), Crash>)
      requires s in portfolio.positions
      modifies this, portfolio, runtime
      ensures Took(Engine.OnCloseout(old(View()), c, now, s, open), r, View())
    {
      r := Submit(c, OrderId(c.session, SessionClose, Sell, now, s), open, portfolio.positions[s].quantity, true);
    }

    method ForceSell(c: Ctx, now: int, s: Symbol, bars: map<Symbol, Bar>, ghost todo: set<Symbol>)
      returns (r: Result<(), Crash>)
      requires Steady(View(), c, desk, now) && BarsOk(c, bars) && now == c.closeout - 1
      requires Closing(View(), c, desk, todo) && s in todo && Fresh(intentKeys, c.session, CloseFamily, now, todo)
      modifies this, portfolio, runtime
      ensures r.Success? && SoldOne(old(View()), View(), c, desk, now, s, todo)
    {
      assert SymbolCoupled(View(), c, desk, s);
      ghost var later := ClosingStep(View(), c, desk, now, s, bars[s].open, todo);
      ghost var after := Engine.OnCloseout(View(), c, now, s, bars[s].open).value;
      r := CloseOut(c, now, s, bars[s].open);
      assert View() == after;
      desk := later;
    }

    method ForceSells(c: Ctx, now: int, bars: map<Symbol, Bar>) returns (r: Result<(), Crash>)
      requires Steady(View(), c, desk, now) && BarsOk(c, bars) && now == c.closeout - 1
      requires pending == map[] && Before(intentKeys, c.session, CloseFamily, now)
      modifies this, portfolio, runtime
      ensures r.Success? && Steady(View(), c, desk, now) && KeepsCover(old(View()), View())
      ensures AddsOnly(old(intentKeys), intentKeys, c.session, CloseFamily, now)
      ensures AllForced(pending, c) && Winding(View(), desk) && Current(pending, now) && SoldOff(View(), c, {})
    {
      var todo := portfolio.positions.Keys;
      r := Success(());
      BeforeIsFresh(intentKeys, c.session, CloseFamily, now, todo);
      ClosingStarts(View(), c, desk);
      while todo != {}
        invariant r.Success? && Steady(View(), c, desk, now) && KeepsCover(old(View()), View())
        invariant Fresh(intentKeys, c.session, CloseFamily, now, todo)
        invariant AddsOnly(old(intentKeys), intentKeys, c.session, CloseFamily, now)
        invariant Closing(View(), c, desk, todo) && Current(pending, now)
        decreases todo
      {
        var s :| s in todo;
        ghost var before := intentKeys;
        r := ForceSell(c, now, s, bars, todo);
        FreshAfter(before, intentKeys, c.session, CloseFamily, now, s, todo);
        AddsOnlyStep(old(intentKeys), before, intentKeys, c.session, CloseFamily, now, s);
        todo := todo - {s};
      }
      ClosingEnds(View(), c, desk);
    }

    /** The closeout signal: nothing but forced sells of everything held is left working. */
    method Closeout(c: Ctx, now: int, bars: map<Symbol, Bar>) returns (r: Result<(), Crash>)
      requires Steady(View(), c, desk, now) && BarsOk(c, bars) && now == c.closeout - 1
      requires Before(intentKeys, c.session, CloseFamily, now)
      modifies this, portfolio, runtime
      ensures r.Success? && Steady(View(), c, desk, now) && KeepsCover(old(View()), View())
      ensures AddsOnly(old(intentKeys), intentKeys, c.session, CloseFamily, now)
      ensures AllForced(pending, c) && Winding(View(), desk) && Current(pending, now) && SoldOff(View(), c, {})
    {
      r := CancelWorking(c, now, Some(Buy));
      ghost var middle := pending;
      r := CancelWorking(c, now, Some(Sell));
      BothSidesCancelled(old(pending), middle, pending);
      r := ForceSells(c, now, bars);
    }

    /** Working orders meet the bars; at the closeout all of them fill and nothing is left. */
    method Execute(c: Ctx, t: int, bars: map<Symbol, Bar>) returns (r: Result<(), Crash>)
      requires Steady(View(), c, desk, t) && BarsOk(c, bars) && Ready(View(), c, desk, t)
      modifies this, portfolio, runtime
      ensures r.Success? && Steady(View(), c, desk, t)
      ensures BarKeeps(old(View()), View(), c) && intentKeys == old(intentKeys)
      ensures t >= c.closeout ==> Done(View())
      ensures c.rules.orderType.Market? ==> Current(pending, t)
      ensures NoneTouched(pending, bars, t)
    {
      ghost var orders := pending;
      forall id | id in orders
        ensures orders[id].intent.Valid() && id.symbol in bars && bars[id.symbol].Valid()
      {
        OrderFacts(View(), c, desk, id);
      }
      if c.rules.orderType.Market? {
        forall id | id in orders
          ensures !Touched(orders[id].intent, bars[id.symbol], t) ==> id.signalTime >= t
        {
          MarketOrderFills(View(), c, desk, id, bars[id.symbol], t);
        }
      }
      if Done(View()) {
        WindingWhenDone(View(), desk);
      }
      r := ProcessOrders(c, t, bars);
      RemainUntouched(orders, pending, c, t, bars);
      if t >= c.closeout {
        if t == c.closeout {
          AllFill(orders, pending, c, bars);
        }
        assert pending == map[];
        WoundUp(View(), c, desk);
      }
    }

    /** The closeout or the risk exits. */
    method Protect(c: Ctx, t: int, bars: map<Symbol, Bar>) returns (r: Result<(), Crash>)
      requires Steady(View(), c, desk, t) && BarsOk(c, bars) && (t >= c.closeout ==> Done(View()))
      requires Before(intentKeys, c.session, RiskFamily, t + 1)
      requires t < c.closeout ==> Before(intentKeys, c.session, CloseFamily, t)
      modifies this, portfolio, runtime
      ensures r.Success? && Steady(View(), c, desk, t) && KeepsCover(old(View()), View()) &&
              Ready(View(), c, desk, t + 1)
      ensures AddsOnly(old(intentKeys), intentKeys, c.session, RiskFamily, t + 1) ||
              (t == c.closeout - 1 && AddsOnly(old(intentKeys), intentKeys, c.session, CloseFamily, t))
      ensures Current(old(pending), t) ==> Current(pending, t)
      ensures t < c.closeout - 1 ==> AllGuarded(View(), c, desk, t, bars, {})
      ensures NoneTouched(old(pending), bars, t) ==> NoneTouched(pending, bars, t)
    {
      r := Success(());
      if t == c.closeout - 1 {
        r := Closeout(c, t, bars);
        SoldOffUntouched(View(), c, t, bars);
      }
      if t < c.closeout - 1 {
        r := RiskExits(c, t, bars);
        if NoneTouched(old(pending), bars, t) {
          SweptUntouched(old(View()), pending, c, t, bars);
        }
      }
    }

    /** One minute, in the program's order: signals, fills, marks, then the closeout or the risk
        exits.  It fails only at a mispriced row. */
    method Minute(c: Ctx, t: int, bars: map<Symbol, Bar>, rows: seq<SignalRow>, ghost next: int)
      returns (r: Result<(), Crash>)
      requires AtMinute(View(), c, desk, t) && c.opens <= t && next == t + 1 && BarsOk(c, bars) && RowsOk(rows)
      requires rows != [] ==> Covered(portfolio.View())
      modifies this, portfolio, runtime
      ensures r.Failure? ==> PriceCrash(r.error) && AnyMispriced(rows, c.rules) && t < c.closeout - 1
      ensures r.Success? ==> AtMinute(View(), c, desk, next) && BarKeeps(old(View()), View(), c)
      ensures r.Success? && rows == [] && c.rules.orderType.Market? ==> NoBuys(pending)
      ensures r.Success? && t < c.closeout - 1 ==> AllGuarded(View(), c, desk, t, bars, {})
      ensures r.Success? ==> NoneTouched(pending, bars, t)
      ensures r.Success? && t < c.closeout - 1 && intents == [] ==> !AnyInvites(rows, |rows|, c, portfolio.initialCash)
    {
      KeyedBefore(intentKeys, c, t);
      ghost var before := intentKeys;
      if t < c.closeout - 1 {
        ghost var trace;
        r, trace := Signals(c, t, rows);
        if r.Failure? { return; }
      }
      ghost var middle := intentKeys;
      StillBefore(before, middle, c, t);
      r := Execute(c, t, bars);
      r := MarkPositions(c, t, bars);
      r := Protect(c, t, bars);
      if rows == [] && c.rules.orderType.Market? {
        NoNewSignals(middle, intentKeys, c, t);
        NothingToBuy(View(), c, desk, t);
      }
      NextMinute(View(), c, desk, t, before, middle);
    }

    // ----- A session -----

    method Minutes(c: Ctx, s: SessionInput) returns (r: Result<(), Crash>)
      requires AtMinute(View(), c, desk, s.opens) && c.opens == s.opens && s.Valid(c.rules) && c.closeout < s.Closes()
      requires Sheltered(View(), c, s, s.opens)
      modifies this, portfolio, runtime
      ensures r.Failure? ==> PriceCrash(r.error) && s.Mispriced(c.rules, c.closeout)
      ensures r.Success? ==> Steady(View(), c, desk, s.Closes()) && Keyed(intentKeys, c, s.Closes()) && Done(View())
      ensures r.Success? ==> KeepsIntents(old(View()), View())
      ensures r.Success? && intents == [] ==> !s.Invites(c.rules, c.scenario, portfolio.initialCash, c.closeout - 1)
    {
      NothingInvitesYet(s, c, portfolio.initialCash);
      r := Success(());
      var t, end := s.opens, s.Closes();
      while t != end
        invariant s.opens <= t <= end && r.Success? && AtTime(old(View()), View(), c, desk, s, t)
        decreases end - t
      {
        InputAt(s, c, t);
        var next := t + 1;
        ghost var was, d := View(), desk;
        if s.RowsAt(t) != [] {
          ShelteredIsCovered(was, c, d, s, t);
        }
        r := Minute(c, t, s.minutes[t - s.opens], s.RowsAt(t), next);
        if r.Failure? { return; }
        NextTime(old(View()), was, View(), c, d, desk, s, t, next);
        t := next;
      }
    }

    /** The checks after the last minute find nothing, and every runtime state can be closed. */
    method Finish(c: Ctx, now: int) returns (r: Result<(), Crash>)
      requires Steady(View(), c, desk, now) && Keyed(intentKeys, c, now) && Done(View())
      modifies this, portfolio, runtime
      ensures KeepsIntents(old(View()), View())
      ensures r.Success? && Idle(View(), c.rules, c.scenario, c.past[c.session := Window(c.opens, c.closeout)])
      ensures forall s :: s in c.rules.symbols ==>
                StateFor(runtime.states, RuntimeKey(s, c.session)).phase.SessionClosed?
    {
      r := CancelWorking(c, now, None);
      assert Done(View());
      r := if portfolio.positions != map[] then Failure(PositionsRemained) else Success(());
      assert r.Success?;
      ghost var before := View();
      DoneIsFlat(before, c, desk);
      ClosableWhenFlat(before, c);
      r := CloseStates(c);
      SessionIsOver(before, View(), c, desk, now);
      r := if portfolio.positions != map[] || portfolio.reservations != map[] then Failure(NotFlat) else Success(());
      assert r.Success?;
    }

    method CloseStates(c: Ctx) returns (r: Result<(), Crash>)
      requires Closable(runtime.states, c, c.rules.symbols)
      modifies runtime
      ensures r.Success?
      ensures forall s :: s in c.rules.symbols ==>
                StateFor(runtime.states, RuntimeKey(s, c.session)).phase.SessionClosed?
      ensures forall k :: k in runtime.states ==> k in old(runtime.states) || k.session == c.session
    {
      var todo := c.rules.symbols;
      r := Success(());
      while todo != {}
        invariant todo <= c.rules.symbols
        invariant Closable(runtime.states, c, todo)
        invariant forall s :: s in c.rules.symbols && s !in todo ==>
                    StateFor(runtime.states, RuntimeKey(s, c.session)).phase.SessionClosed?
        invariant forall k :: k in runtime.states ==> k in old(runtime.states) || k.session == c.session
        invariant r.Success?
        decreases todo
      {
        var s :| s in todo;
        var closed := runtime.CloseSession(RuntimeKey(s, c.session));
        assert closed.Success?;
        todo := todo - {s};
      }
    }

    method Session(rules: Rules, scenario: Scenario, buffer: int, past: map<int, Window>, date: int, s: SessionInput)
      returns (r: Result<(), Crash>)
      requires rules.Valid() && Idle(View(), rules, scenario, past) && date !in past && s.Valid(rules) && buffer >= 1
      modifies this, portfolio, runtime
      ensures !s.Tradable(buffer) ==> r == Failure(NoTradingMinute)
      ensures r.Success? ==> KeepsIntents(old(View()), View())
      ensures r.Success? && intents == [] ==> !Inviting(s, rules, scenario, portfolio.initialCash, buffer)
      ensures s.Tradable(buffer) && r.Failure? ==> PriceCrash(r.error) && CouldRaise(s, rules, buffer)
      ensures r.Success? ==> s.Tradable(buffer) && Idle(View(), rules, scenario, past[date := s.Hours(buffer)])
    {
      if !s.Tradable(buffer) { return Failure(NoTradingMinute); }
      var c := Ctx(rules, scenario, date, s.opens, s.Hours(buffer).closeout, past);
      desk := map[];
      NewSession(View(), c);
      StartsSheltered(View(), c, s);
      r := Minutes(c, s);
      if r.Failure? { return; }
      r := Finish(c, s.Closes());
    }
  }

  // ----- The whole run -----

  /** Some row before the closeout signal has a close at which an order could raise. */
  predicate CouldRaise(s: SessionInput, rules: Rules, buffer: int) {
    s.Mispriced(rules, s.Hours(buffer).closeout)
  }

  /** Some row before the closeout signal asks to buy a share that the initial cash affords. */
  predicate Inviting(s: SessionInput, rules: Rules, scenario: Scenario, cash: real, buffer: int) {
    s.Invites(rules, scenario, cash, s.Hours(buffer).closeout - 1)
  }

  datatype RunResult =
    RunResult(finalCash: real, trades: seq<Trade>, intents: seq<Intent>, fills: seq<FillEvent<Symbol, OrderId>>,
              finalPositions: map<Symbol, Position>)

  /** The trading hours of the sessions, by date. */
  function AllHours(sessions: map<int, SessionInput>, buffer: int): (hours: map<int, Window>)
    ensures hours.Keys == sessions.Keys
  {
    map d | d in sessions :: sessions[d].Hours(buffer)
  }

  /** The sessions of the first `i` dates are over. */
  ghost predicate Played(past: map<int, Window>, sessions: map<int, SessionInput>, buffer: int, dates: seq<int>, i: nat)
    requires i <= |dates|
  {
    && PartOf(past, AllHours(sessions, buffer), dates[..i])
    && (forall d :: d in past ==> sessions[d].Tradable(buffer))
  }

  ghost predicate Uninvited(past: map<int, Window>, sessions: map<int, SessionInput>, rules: Rules, scenario: Scenario,
                            cash: real, buffer: int)
  {
    forall d :: d in past && d in sessions ==> !Inviting(sessions[d], rules, scenario, cash, buffer)
  }

  lemma PlayedNext(past: map<int, Window>, sessions: map<int, SessionInput>, buffer: int, dates: seq<int>, i: nat,
                   next: nat)
    requires Ascending(dates) && i < |dates| && next == i + 1 && Played(past, sessions, buffer, dates, i)
    requires dates[i] in sessions
    ensures dates[i] !in past
    ensures sessions[dates[i]].Tradable(buffer) ==>
              Played(past[dates[i] := sessions[dates[i]].Hours(buffer)], sessions, buffer, dates, next)
  {
    NewDate(dates, i);
    PartGrows(past, AllHours(sessions, buffer), dates, i, next);
  }

  lemma PlayedAll(past: map<int, Window>, sessions: map<int, SessionInput>, buffer: int, dates: seq<int>)
    requires Played(past, sessions, buffer, dates, |dates|) && Lists(dates, sessions.Keys)
    ensures past == AllHours(sessions, buffer)
    ensures forall d :: d in sessions ==> sessions[d].Tradable(buffer)
  {
    PartIsWhole(past, AllHours(sessions, buffer), dates);
  }

  /** What a finished run promises: it is flat, the cash is explained by the recorded trades to
      one epsilon per fill, replaying the fills gives exactly these trades and nothing held, and the
      trades keep to their prices, their hours, their spacing and the entry cap of their session. */
  ghost predicate Reconciles(initialCash: real, rules: Rules, scenario: Scenario, hours: map<int, Window>,
                             run: RunResult) {
    && run.finalPositions == map[]
    && run.finalCash >= 0.0
    && -Tolerance(2 * |run.trades|) <= run.finalCash - initialCash - NetPnl(run.trades) <= Tolerance(2 * |run.trades|)
    && |run.fills| == 2 * |run.trades|
    && TapeOf(run.fills) == Some(Tape(map[], TripsOf(run.trades)))
    && PastTrades(run.trades, rules, scenario, hours)
  }

  lemma IdleReconciles(w: World, rules: Rules, scenario: Scenario, hours: map<int, Window>)
    requires Idle(w, rules, scenario, hours)
    ensures Reconciles(w.account.initialCash, rules, scenario, hours,
                       RunResult(w.account.cash, w.trades, w.intents, w.account.fills, w.account.positions))
  {
    FlatCash(w);
    var held := TapeOf(w.account.fills).value.held;
    forall s ensures s !in held {
      assert Lookup(held, s) == None;
    }
    assert held == map[];
  }

  lemma StartsIdle(initialCash: real, rules: Rules, scenario: Scenario)
    requires initialCash > 0.0
    ensures var a := Open<Symbol, OrderId>(initialCash, MAX_POSITIONS);
            Idle(World(a, map[], map[], map[], [], {}, []), rules, scenario, map[])
  {
    OpenInv<Symbol, OrderId>(initialCash, MAX_POSITIONS);
  }

  /** Every session of every run ends flat, and the cash always covers the reservations.  A run without
      an intent had no row that asked to buy a share its cash affords.  On data whose closes cannot
      raise, a run succeeds exactly when every session is long enough for its closeout. */
  method RunScenario(initialCash: real, rules: Rules, scenario: Scenario, buffer: int, sessions: map<int, SessionInput>)
    returns (r: Result<RunResult, Crash>)
    requires initialCash > 0.0 && rules.Valid() && 1 <= buffer <= 60
    requires forall d :: d in sessions ==> sessions[d].Valid(rules)
    ensures r.Success? ==> Reconciles(initialCash, rules, scenario, AllHours(sessions, buffer), r.value)
    ensures r.Success? && r.value.intents == [] ==>
              forall d :: d in sessions ==> !Inviting(sessions[d], rules, scenario, initialCash, buffer)
    ensures r.Success? ==> forall d :: d in sessions ==> sessions[d].Tradable(buffer)
    ensures r.Failure? ==>
              || (r.error == NoTradingMinute && exists d :: d in sessions && !sessions[d].Tradable(buffer))
              || (PriceCrash(r.error) && exists d :: d in sessions && CouldRaise(sessions[d], rules, buffer))
    ensures (forall d :: d in sessions ==> !CouldRaise(sessions[d], rules, buffer)) ==>
              (r.Success? <==> forall d :: d in sessions ==> sessions[d].Tradable(buffer))
  {
    var run := new ScenarioRun(initialCash);
    StartsIdle(initialCash, rules, scenario);
    var dates := SortedDates(sessions.Keys);
    var past: map<int, Window> := map[];
    var i := 0;
    while i != |dates|
      invariant 0 <= i <= |dates| && Played(past, sessions, buffer, dates, i)
      invariant Idle(run.View(), rules, scenario, past) && fresh(run) && fresh(run.portfolio) && fresh(run.runtime)
      invariant run.portfolio.initialCash == initialCash
      invariant run.intents == [] ==> Uninvited(past, sessions, rules, scenario, initialCash, buffer)
      decreases |dates| - i
    {
      var d, next := dates[i], i + 1;
      assert d in dates;
      PlayedNext(past, sessions, buffer, dates, i, next);
      var played := run.Session(rules, scenario, buffer, past, d, sessions[d]);
      if played.Failure? { return Failure(played.error); }
      past := past[d := sessions[d].Hours(buffer)];
      i := next;
    }
    PlayedAll(past, sessions, buffer, dates);
    IdleReconciles(run.View(), rules, scenario, past);
    return Success(RunResult(run.portfolio.cash, run.trades, run.intents, run.portfolio.fillEvents,
                             run.portfolio.positions));
  }
}
