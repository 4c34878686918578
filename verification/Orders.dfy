/** Order intents, minute bars, the three cost scenarios and the next-minute fill rule. */
module Orders {
  import opened Wrappers
  import opened Accounts

  datatype Symbol = SPY | QQQ | IWM

  /** The first letters of the three symbols differ, so they decide the order of the names. */
  function FirstLetter(s: Symbol): char {
    match s case SPY => 'S' case QQQ => 'Q' case IWM => 'I'
  }

  datatype Reason = EntrySignal | ExitSignal | StopLoss | TakeProfit | MaxHolding | SessionClose

  /** What an order id is a digest of; run, scenario and strategy are fixed during a run.
      The digest is taken to be injective, so the identity itself serves as the id. */
  datatype OrderId = OrderId(session: int, reason: Reason, side: Side, signalTime: int, symbol: Symbol)

  datatype OrderType = Market | Limit

  datatype Intent =
    Intent(id: OrderId, orderType: OrderType, quantity: int, limitPrice: Option<real>, eligibleTime: int)
  {
    /** What constructing an intent checks. */
    predicate Valid() {
      && quantity > 0
      && (orderType.Limit? <==> limitPrice.Some?)
      && (limitPrice.Some? ==> limitPrice.value > 0.0)
      && eligibleTime >= id.signalTime + 1
    }
  }

  datatype Bar = Bar(open: real, high: real, low: real, close: real) {
    predicate Valid() {
      && open > 0.0 && high > 0.0 && low > 0.0 && close > 0.0
      && low <= Min(open, close)
      && open <= high && close <= high
      && low <= high
    }
  }

  datatype CostModel = CostModel(halfSpreadBps: real, slippageBps: real, commissionPerShare: real) {
    function ImpactBps(): real { halfSpreadBps + slippageBps }
  }

  datatype Scenario = Optimistic | Base | Stress

  function Costs(scenario: Scenario): (c: CostModel)
    ensures 0.0 < c.ImpactBps() < 10000.0 && c.commissionPerShare == 0.0
  {
    match scenario
    case Optimistic => CostModel(0.5, 0.5, 0.0)
    case Base => CostModel(1.0, 2.0, 0.0)
    case Stress => CostModel(2.0, 5.0, 0.0)
  }

  /** `price` moved against the trader by the half-spread and the slippage. */
  function Adverse(price: real, side: Side, costs: CostModel): real {
    price * (1.0 + (if side.Buy? then costs.ImpactBps() else -costs.ImpactBps()) / 10000.0)
  }

  function Fees(quantity: int, costs: CostModel): real { quantity as real * costs.commissionPerShare }

  lemma AdversePositive(price: real, side: Side, scenario: Scenario)
    requires price > 0.0
    ensures Adverse(price, side, Costs(scenario)) > 0.0
    ensures side.Buy? ==> Adverse(price, side, Costs(scenario)) > price
    ensures side.Sell? ==> Adverse(price, side, Costs(scenario)) < price
  {}

  /** One, three or seven basis points: what impact adds to the price of a buy and takes from that of
      a sell. */
  lemma AdverseIs(price: real, scenario: Scenario)
    ensures var bps := match scenario case Optimistic => 1.0 case Base => 3.0 case Stress => 7.0;
            && Adverse(price, Buy, Costs(scenario)) == price + price * bps / 10000.0
            && Adverse(price, Sell, Costs(scenario)) == price - price * bps / 10000.0
  {}

  /** The impact in a fill of `quantity` shares at `price`, worked out from the fill alone. */
  function ImpactPaid(quantity: int, price: real, side: Side, scenario: Scenario): real {
    var bps := match scenario case Optimistic => 1.0 case Base => 3.0 case Stress => 7.0;
    quantity as real * (price * (bps / (if side.Buy? then 10000.0 + bps else 10000.0 - bps)))
  }

  lemma ImpactOfAdverse(base: real, side: Side, scenario: Scenario)
    requires base > 0.0
    ensures var p := Adverse(base, side, Costs(scenario));
            (if side.Buy? then p - base else base - p) == ImpactPaid(1, p, side, scenario) > 0.0
  {}

  lemma AdverseNonZero(price: real, side: Side, scenario: Scenario)
    requires price != 0.0
    ensures Adverse(price, side, Costs(scenario)) > 0.0 <==> price > 0.0
    ensures Adverse(price, side, Costs(scenario)) != 0.0
  {}

  lemma AdverseNotPositive(price: real, side: Side, scenario: Scenario)
    requires price <= 0.0
    ensures Adverse(price, side, Costs(scenario)) <= 0.0
  {}

  lemma NoFees(quantity: int, scenario: Scenario)
    ensures Fees(quantity, Costs(scenario)) == 0.0
  {}

  /** The price at which the bar of minute `now` fills the order, if it does. */
  function FillPrice(intent: Intent, bar: Bar, now: int, costs: CostModel): Option<real>
    requires intent.Valid()
  {
    if now < intent.eligibleTime then None
    else
      match intent.orderType
      case Market => Some(Adverse(bar.open, intent.id.side, costs))
      case Limit =>
        var limit := intent.limitPrice.value;
        if intent.id.side.Buy? then (if bar.low <= limit then Some(limit) else None)
        else if bar.high >= limit then Some(limit)
        else None
  }

  /** The bar of the minute reaches from its low to its high. */
  predicate TradedAt(bar: Bar, p: real) { bar.low <= p <= bar.high }

  /** `p` is at least as good for the order as its limit. */
  predicate GoodFor(intent: Intent, p: real) {
    intent.limitPrice.Some? ==>
      if intent.id.side.Buy? then p <= intent.limitPrice.value else p >= intent.limitPrice.value
  }

  /** The order is eligible and some price the minute reached is good enough for it. */
  ghost predicate Touched(intent: Intent, bar: Bar, now: int) {
    now >= intent.eligibleTime && exists p :: TradedAt(bar, p) && GoodFor(intent, p)
  }

  /** The limit, or the open moved by the impact. */
  function PriceOf(intent: Intent, bar: Bar, scenario: Scenario): real {
    if intent.limitPrice.Some? then intent.limitPrice.value else Adverse(bar.open, intent.id.side, Costs(scenario))
  }

  /** An order fills exactly when it is touched: a limit order at its limit, a market order at the
      open moved by the impact. */
  lemma FillPriceMeans(intent: Intent, bar: Bar, now: int, scenario: Scenario)
    requires intent.Valid() && bar.Valid()
    ensures var p := FillPrice(intent, bar, now, Costs(scenario));
            p == if Touched(intent, bar, now) then Some(PriceOf(intent, bar, scenario)) else None
  {
    if Touched(intent, bar, now) {
      var p :| TradedAt(bar, p) && GoodFor(intent, p);
    }
    assert TradedAt(bar, bar.low) && TradedAt(bar, bar.high);
  }

  lemma FillPricePositive(intent: Intent, bar: Bar, now: int, scenario: Scenario)
    requires intent.Valid() && bar.Valid()
    ensures var p := FillPrice(intent, bar, now, Costs(scenario)); p.Some? ==> p.value > 0.0
  {
    AdversePositive(bar.open, intent.id.side, scenario);
  }
}
