/** The feature rows of a minute: what each of them did, and what it means that none placed an order. */
module Rows {
  import opened Wrappers
  import opened Accounts
  import opened Orders
  import opened Engine
  import opened Coupling
  import opened Books
  import opened StepLaws
  import opened Decisions
  import opened SignalLaws

  /** A completed feature row: the close of its signal bar, of which only finiteness is checked, and
      what the two compiled rules say of it. */
  datatype SignalRow = SignalRow(symbol: Symbol, price: real, enters: bool, exits: bool) {
    /** The row of a traded symbol enters, and one share fits an account that holds only this cash. */
    predicate Invites(rules: Rules, scenario: Scenario, cash: real) {
      && symbol in rules.symbols && enters && price > 0.0 && cash > MONEY_EPSILON
      && Adverse(price, Buy, Costs(scenario)) <= cash / 3.0
      && (rules.sizing.EqualRisk? ==> price * rules.stopLossBps as real / 10000.0 <= cash * 0.005)
    }

    /** A close at which an order could raise. */
    predicate Mispriced(rules: Rules) {
      symbol in rules.symbols && SignalLaws.Mispriced(rules, price, enters, exits)
    }
  }

  /** What one row does; rows of symbols that are not traded are passed over. */
  ghost predicate RowActs(w: World, v: World, c: Ctx, now: int, row: SignalRow) {
    if row.symbol in c.rules.symbols then RowEffect(w, v, c, now, row.symbol, row.price, row.enters, row.exits)
    else v == w
  }

  /** The worlds between the rows of a minute. */
  ghost predicate Traced(trace: seq<World>, c: Ctx, now: int, rows: seq<SignalRow>, n: nat) {
    n <= |rows| && |trace| == n + 1 && forall k :: 0 <= k < n ==> RowActs(trace[k], trace[k + 1], c, now, rows[k])
  }

  lemma TracedNext(trace: seq<World>, v: World, c: Ctx, now: int, rows: seq<SignalRow>, n: nat, next: nat)
    requires Traced(trace, c, now, rows, n) && n < |rows| && next == n + 1 && RowActs(trace[n], v, c, now, rows[n])
    ensures Traced(trace + [v], c, now, rows, next)
  {
    var more := trace + [v];
    forall k | 0 <= k < next ensures RowActs(more[k], more[k + 1], c, now, rows[k]) {
      if k < n {
        assert more[k] == trace[k] && more[k + 1] == trace[k + 1];
      }
    }
  }

  // ----- A run without a single intent -----

  /** Without an intent on record nothing has happened to the account. */
  lemma PristineAccount(w: World, c: Ctx, desk: Desk, now: int)
    requires Steady(w, c, desk, now) && w.intents == []
    ensures Pristine(w)
  {
    assert w.pending == map[] && w.account.reservations == map[];
    forall s ensures s !in w.account.positions && s !in w.openTrades {
      assert SymbolCoupled(w, c, desk, s);
      assert Lookup(TapeOf(w.account.fills).value.held, s) == None;
    }
  }

  /** Nothing working, nothing held, no trade yet, all the cash there. */
  predicate Pristine(w: World) {
    && w.pending == map[] && w.account.positions == map[] && w.account.reservations == map[] && w.openTrades == map[]
    && w.trades == [] && w.account.cash == w.account.initialCash
  }

  lemma EmptyHanded(a: Account<Symbol, OrderId>)
    requires a.positions == map[] && a.reservations == map[] && a.cash > MONEY_EPSILON
    ensures Equity(a) == a.cash && AvailableCash(a) == Success(a.cash)
  {}

  lemma OneShare(price: real, stopLossBps: int)
    ensures Paid(1, price, 0.0) == price && AtRisk(1, price, stopLossBps) == price * stopLossBps as real / 10000.0
  {}

  lemma PristineFits(w: World, c: Ctx, row: SignalRow)
    requires Pristine(w) && row.Invites(c.rules, c.scenario, w.account.initialCash)
    ensures Fits(w, c, row.price, 1)
  {
    EmptyHanded(w.account);
    assert BuyOrders(w.pending) == {};
    assert Places(w) == 3;
    OneShare(Adverse(row.price, Buy, Costs(c.scenario)), c.rules.stopLossBps);
    OneShare(row.price, c.rules.stopLossBps);
  }

  lemma PristineMayEnter(w: World, c: Ctx, now: int, s: Symbol)
    requires Pristine(w) && c.rules.Valid()
    ensures MayEnter(w, c, now, s, true)
  {
    assert BuyOrders(w.pending) == {};
  }

  predicate AnyInvites(rows: seq<SignalRow>, n: nat, c: Ctx, cash: real) {
    exists k :: 0 <= k < n <= |rows| && rows[k].Invites(c.rules, c.scenario, cash)
  }

  lemma BuyIsOnRecord(w: World, v: World, c: Ctx, now: int, row: SignalRow)
    requires RowActs(w, v, c, now, row) && row.symbol in c.rules.symbols
    requires Buys(w, c, now, row.symbol, row.price, row.enters)
    ensures v.intents != []
  {
    var n :| Largest(w, c, row.price, n) &&
             Placed(w, v, c, OrderId(c.session, EntrySignal, Buy, now, row.symbol), row.price, n);
  }

  /** A row that leaves no intent on record did not invite. */
  lemma NoIntentNoInvitation(w: World, v: World, c: Ctx, desk: Desk, now: int, row: SignalRow)
    requires Steady(w, c, desk, now) && RowActs(w, v, c, now, row) && w.intents == []
    requires row.Invites(c.rules, c.scenario, w.account.initialCash)
    ensures v.intents != []
  {
    PristineAccount(w, c, desk, now);
    PristineFits(w, c, row);
    PristineMayEnter(w, c, now, row.symbol);
    BuyIsOnRecord(w, v, c, now, row);
  }

  /** One row more without an invitation, as long as there is no intent. */
  lemma NextInvitation(w: World, v: World, c: Ctx, desk: Desk, now: int, rows: seq<SignalRow>, i: nat, next: nat)
    requires Steady(w, c, desk, now) && i < |rows| && next == i + 1 && RowActs(w, v, c, now, rows[i])
    requires KeepsIntents(w, v) && (w.intents == [] ==> !AnyInvites(rows, i, c, w.account.initialCash))
    ensures v.intents == [] ==> !AnyInvites(rows, next, c, w.account.initialCash)
  {
    AnyInvitesNext(rows, i, next, c, w.account.initialCash);
    if w.intents == [] && rows[i].Invites(c.rules, c.scenario, w.account.initialCash) {
      NoIntentNoInvitation(w, v, c, desk, now, rows[i]);
    }
  }

  lemma AnyInvitesNext(rows: seq<SignalRow>, i: nat, next: nat, c: Ctx, cash: real)
    requires i < |rows| && next == i + 1
    ensures AnyInvites(rows, next, c, cash) ==>
            AnyInvites(rows, i, c, cash) || rows[i].Invites(c.rules, c.scenario, cash)
  {}
}
