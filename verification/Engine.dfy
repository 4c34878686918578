/** What one step of the minute engine does to everything it owns: the portfolio, the runtime
    states, the working orders, the open and closed trades and the order ids already used.
    A step that raises is a `Failure`. */
module Engine {
  import opened Wrappers
  import opened Accounts
  import opened Phases
  import opened Orders

  const MAX_POSITIONS := 3
  const RISK_BUDGET_FRACTION: real := 0.005

  datatype Sizing = EqualCash | EqualRisk

  /** The validated risk controls of a compiled strategy. */
  datatype Rules =
    Rules(symbols: set<Symbol>, stopLossBps: int, takeProfitBps: int, maxHoldingMinutes: int,
          cooldownMinutes: int, maxEntries: int, sizing: Sizing, orderType: OrderType)
  {
    predicate Valid() {
      && symbols != {}
      && 1 <= stopLossBps <= 10000 && 1 <= takeProfitBps <= 10000
      && 1 <= maxHoldingMinutes <= 1440 && 1 <= cooldownMinutes <= 1440
      && 1 <= maxEntries <= 3
    }
  }

  /** The first minute of a session and the minute of its closeout. */
  datatype Window = Window(opens: int, closeout: int)

  /** What stays fixed during a session; `past` has the windows of the sessions before it. */
  datatype Ctx = Ctx(rules: Rules, scenario: Scenario, session: int, opens: int, closeout: int, past: map<int, Window>)

  datatype RuntimeKey = RuntimeKey(symbol: Symbol, session: int)

  datatype PendingOrder = PendingOrder(intent: Intent, referencePrice: real, forced: bool)

  datatype OpenTrade = OpenTrade(session: int, quantity: int, entryTime: int, entryPrice: real, entryCost: real)

  datatype Trade =
    Trade(symbol: Symbol, session: int, quantity: int, entryTime: int, exitTime: int,
          entryPrice: real, exitPrice: real, grossPnl: real, netPnl: real, costPaid: real, forced: bool)

  datatype World =
    World(account: Account<Symbol, OrderId>,
          states: map<RuntimeKey, RuntimeState>,
          pending: map<OrderId, PendingOrder>,
          openTrades: map<Symbol, OpenTrade>,
          trades: seq<Trade>,
          intentKeys: set<OrderId>,
          intents: seq<Intent>)

  datatype Crash =
    | RuntimeCrash(runtimeError: RuntimeError)
    | AccountCrash(accountError: AccountError)
    | InvalidIntent
    | DivisionByZero
    | SellWithoutPosition
    | MissingOpenTrade
    | MissingPosition
    | PositionsRemained
    | NotFlat
    | NoTradingMinute

  type Step = Result<World, Crash>

  function State(w: World, c: Ctx, s: Symbol): RuntimeState {
    StateFor(w.states, RuntimeKey(s, c.session))
  }

  function Put(w: World, c: Ctx, s: Symbol, state: RuntimeState): World {
    w.(states := w.states[RuntimeKey(s, c.session) := state])
  }

  function FromRuntime(next: Next): Result<RuntimeState, Crash> {
    match next
    case Success(state) => Success(state)
    case Failure(e) => Failure(RuntimeCrash(e))
  }

  // ----- Submitting an order -----

  function Signalled(state: RuntimeState, side: Side, at: int): Result<RuntimeState, Crash> {
    var recorded :- FromRuntime(RecordSignal(state, if side.Buy? then EnterLong else ExitLong, at));
    FromRuntime(Transition(recorded, if side.Buy? then EntryPending else ExitPending))
  }

  function MakeIntent(c: Ctx, id: OrderId, price: real, quantity: int, forced: bool): Intent {
    var orderType := if forced then Market else c.rules.orderType;
    Intent(id, orderType, quantity,
           if orderType.Limit? then Some(Adverse(price, id.side, Costs(c.scenario))) else None,
           id.signalTime + 1)
  }

  ghost function Submit(w: World, c: Ctx, id: OrderId, price: real, quantity: int, forced: bool): Step {
    var state :- Signalled(State(w, c, id.symbol), id.side, id.signalTime);
    var signalled := Put(w, c, id.symbol, state);
    if id in w.intentKeys then Success(signalled)
    else
      var intent := MakeIntent(c, id, price, quantity, forced);
      if !intent.Valid() then Failure(InvalidIntent)
      else
        match Reserve(w.account, id, id.symbol, id.side, quantity, Adverse(price, id.side, Costs(c.scenario)),
                      Fees(quantity, Costs(c.scenario)))
        case Failure(_) =>
          var rejected :- FromRuntime(OrderRejected(state));
          Success(Put(w, c, id.symbol, rejected))
        case Success(account) =>
          Success(signalled.(account := account,
                             pending := w.pending[id := PendingOrder(intent, price, forced)],
                             intentKeys := w.intentKeys + {id},
                             intents := w.intents + [intent]))
  }

  // ----- A strategy signal -----

  function FilledEntries(w: World, c: Ctx, s: Symbol): int {
    if s in c.rules.symbols then State(w, c, s).entries else 0
  }

  function BuyOrders(pending: map<OrderId, PendingOrder>): set<OrderId> {
    set id | id in pending && id.side.Buy?
  }

  function SlotsUsed(w: World, c: Ctx): int {
    FilledEntries(w, c, SPY) + FilledEntries(w, c, QQQ) + FilledEntries(w, c, IWM) + |BuyOrders(w.pending)|
  }

  function BuyReservations<S, O>(reservations: map<O, Reservation<S>>): set<O> {
    set id | id in reservations && reservations[id].side.Buy?
  }

  function FreeSlots(a: Account<Symbol, OrderId>): int {
    var occupied := |a.positions| + |BuyReservations(a.reservations)|;
    if occupied < MAX_POSITIONS then MAX_POSITIONS - occupied else 1
  }

  function CashQuantity(available: real, slots: int, adverse: real): int
    requires slots >= 1 && adverse != 0.0
  {
    (available / slots as real / adverse).Floor
  }

  function RiskQuantity(equity: real, price: real, stopLossBps: int): int
    requires price != 0.0 && stopLossBps > 0
  {
    var riskPerShare := price * stopLossBps as real / 10000.0;
    (equity * RISK_BUDGET_FRACTION / riskPerShare).Floor
  }

  /** A reference price of zero is a division by zero; a negative one leads to no order. */
  ghost function EntryQuantity(a: Account<Symbol, OrderId>, c: Ctx, price: real): Result<int, Crash>
    requires c.rules.Valid()
  {
    var available := AvailableCash(a);
    if available.Failure? then Failure(AccountCrash(available.error))
    else if price == 0.0 then Failure(DivisionByZero)
    else
      AdverseNonZero(price, Buy, c.scenario);
      var cash := CashQuantity(available.value, FreeSlots(a), Adverse(price, Buy, Costs(c.scenario)));
      var quantity := if c.rules.sizing.EqualCash? then cash
                      else
                        var risk := RiskQuantity(Equity(a), price, c.rules.stopLossBps);
                        if risk < cash then risk else cash;
      Success(if quantity < 0 then 0 else quantity)
  }

  /** A cooldown that has run out ends when the next feature row arrives. */
  function Rested(state: RuntimeState, now: int): Result<RuntimeState, Crash> {
    if state.phase.Cooldown? && !CooldownActive(state, now) then FromRuntime(CompleteCooldown(state, now))
    else Success(state)
  }

  /** Enter when flat, allowed and told to; leave when long and told to. */
  ghost function Judged(w: World, c: Ctx, now: int, s: Symbol, price: real, enters: bool, exits: bool): Step
    requires c.rules.Valid()
  {
    var phase := State(w, c, s).phase;
    if phase.Flat? && SlotsUsed(w, c) < c.rules.maxEntries && enters then
      var quantity :- EntryQuantity(w.account, c, price);
      if quantity > 0 then Submit(w, c, OrderId(c.session, EntrySignal, Buy, now, s), price, quantity, false)
      else Success(w)
    else if phase.Long? && exits then
      if s !in w.account.positions then Failure(MissingPosition)
      else
        Submit(w, c, OrderId(c.session, ExitSignal, Sell, now, s), price, w.account.positions[s].quantity, false)
    else Success(w)
  }

  ghost function OnSignal(w: World, c: Ctx, now: int, s: Symbol, price: real, enters: bool, exits: bool): Step
    requires c.rules.Valid()
  {
    var state :- Rested(State(w, c, s), now);
    Judged(if state == State(w, c, s) then w else Put(w, c, s, state), c, now, s, price, enters, exits)
  }

  // ----- Filling and cancelling -----

  function Positive(x: real): real { if x > 0.0 then x else 0.0 }

  /** Adverse move from the reference price, for every share, plus the fees. */
  function FillCost(order: PendingOrder, bar: Bar, price: real, fees: real): real {
    var reference := if order.intent.orderType.Market? then bar.open else order.referencePrice;
    Positive(if order.intent.id.side.Buy? then price - reference else reference - price) *
    order.intent.quantity as real + fees
  }

  function ExitReasonOf(id: OrderId): Option<ExitReason> {
    if id.reason.SessionClose? then Some(EndOfDay) else if id.side.Sell? then Some(Strategy) else None
  }

  ghost function Opened(w: World, c: Ctx, id: OrderId, account: Account<Symbol, OrderId>, now: int, price: real,
                        cost: real): Step
    requires id in w.pending
  {
    var state :- FromRuntime(EntryFilled(State(w, c, id.symbol), now));
    var trade := OpenTrade(c.session, w.pending[id].intent.quantity, now, price, cost);
    Success(Put(w, c, id.symbol, state).(account := account,
                                         pending := w.pending - {id},
                                         openTrades := w.openTrades[id.symbol := trade]))
  }

  function TradeOf(c: Ctx, id: OrderId, order: PendingOrder, entry: OpenTrade, now: int, price: real, gain: real,
                   cost: real): Trade
  {
    Trade(id.symbol, c.session, order.intent.quantity, entry.entryTime, now, entry.entryPrice, price,
          gain + (entry.entryCost + cost), gain, entry.entryCost + cost, order.forced)
  }

  ghost function Closed(w: World, c: Ctx, id: OrderId, account: Account<Symbol, OrderId>, now: int, price: real,
                        fees: real, cost: real): Step
    requires id in w.pending
  {
    if id.symbol !in w.account.positions then Failure(SellWithoutPosition)
    else
      var state :- FromRuntime(ExitFilled(State(w, c, id.symbol), now, c.rules.cooldownMinutes));
      if id.symbol !in w.openTrades then Failure(MissingOpenTrade)
      else
        var order := w.pending[id];
        var gain := Gain(order.intent.quantity, price, w.account.positions[id.symbol].averageCost, fees);
        Success(Put(w, c, id.symbol, state).(account := account,
                                             pending := w.pending - {id},
                                             openTrades := w.openTrades - {id.symbol},
                                             trades := w.trades + [TradeOf(c, id, order, w.openTrades[id.symbol], now,
                                                                           price, gain, cost)]))
  }

  /** Release the reservation and tell the runtime the order is gone. */
  ghost function Dropped(w: World, c: Ctx, id: OrderId): Step {
    var account := Cancel(w.account, id);
    if account.Failure? then Failure(AccountCrash(account.error))
    else
      var state :- FromRuntime(OrderRejected(State(w, c, id.symbol)));
      Success(Put(w, c, id.symbol, state).(account := account.value, pending := w.pending - {id}))
  }

  ghost function FilledAt(w: World, c: Ctx, id: OrderId, bar: Bar, now: int, price: real): Step
    requires id in w.pending
  {
    var order := w.pending[id];
    var fees := Fees(order.intent.quantity, Costs(c.scenario));
    var cost := FillCost(order, bar, price, fees);
    var account := Fill(w.account, id, order.intent.quantity, price, fees, ExitReasonOf(id));
    if account.Failure? then Dropped(w, c, id)
    else if id.side.Buy? then Opened(w, c, id, account.value, now, price, cost)
    else Closed(w, c, id, account.value, now, price, fees, cost)
  }

  /** One working order meets the bar of minute `now`. */
  ghost function OnBar(w: World, c: Ctx, id: OrderId, bar: Bar, now: int): Step
    requires id in w.pending && w.pending[id].intent.Valid()
  {
    var price := FillPrice(w.pending[id].intent, bar, now, Costs(c.scenario));
    if price.None? then Success(w) else FilledAt(w, c, id, bar, now, price.value)
  }

  // ----- Marking and risk exits -----

  ghost function OnMark(w: World, s: Symbol, close: real): Step {
    match Mark(w.account, s, close)
    case Failure(e) => Failure(AccountCrash(e))
    case Success(account) => Success(w.(account := account))
  }

  /** Stop loss first, then take profit, then the holding time. */
  function RiskReason(rules: Rules, close: real, averageCost: real, holding: Option<int>): Option<Reason>
    requires averageCost > 0.0
  {
    var returnBps := (close / averageCost - 1.0) * 10000.0;
    if returnBps <= -(rules.stopLossBps as real) then Some(StopLoss)
    else if returnBps >= rules.takeProfitBps as real then Some(TakeProfit)
    else if holding.Some? && holding.value >= rules.maxHoldingMinutes then Some(MaxHolding)
    else None
  }

  ghost function OnRisk(w: World, c: Ctx, now: int, s: Symbol, close: real): Step
    requires s in w.account.positions && w.account.positions[s].averageCost > 0.0
  {
    var state := State(w, c, s);
    var position := w.account.positions[s];
    if !state.phase.Long? then Success(w)
    else
      var holding := HoldingMinutes(state, now + 1);
      if holding.Failure? then Failure(RuntimeCrash(holding.error))
      else
        var reason := RiskReason(c.rules, close, position.averageCost, holding.value);
        if reason.None? then Success(w)
        else Submit(w, c, OrderId(c.session, reason.value, Sell, now + 1, s), close, position.quantity, false)
  }

  /** The forced sell at the closeout signal. */
  ghost function OnCloseout(w: World, c: Ctx, now: int, s: Symbol, open: real): Step
    requires s in w.account.positions
  {
    Submit(w, c, OrderId(c.session, SessionClose, Sell, now, s), open, w.account.positions[s].quantity, true)
  }
}
