/** Long-only integer-share accounting: the values a `Portfolio` holds and what each of its
    operations does to them.  A call that raises is a `Failure` and has no resulting account. */
module Accounts {
  import opened Wrappers
  import opened Sums

  const MONEY_EPSILON: real := 0.000000000001

  datatype Side = Buy | Sell

  datatype ExitReason = Strategy | EndOfDay

  datatype Position = Position(quantity: int, averageCost: real, marketPrice: real) {
    function CostBasis(): real { quantity as real * averageCost }
    function MarketValue(): real { quantity as real * marketPrice }
  }

  datatype Reservation<S> = Reservation(symbol: S, side: Side, remaining: int, reservedCash: real)

  datatype FillEvent<S, O> =
    FillEvent(orderId: O, symbol: S, side: Side, quantity: int, price: real, fees: real,
              exitReason: Option<ExitReason>)
  {
    predicate Forced() { exitReason == Some(EndOfDay) }
  }

  datatype AccountError =
    | NonPositiveQuantity
    | NonPositivePrice
    | NegativeFees
    | DuplicateReservation
    | TooManyPositions
    | NegativeResidual
    | ExceedsAvailableCash
    | ExceedsHeldQuantity
    | ReservationNotFound
    | ExceedsReservation
    | FillExceedsCash
    | ShortPosition
    | NegativeCash
    | PositionNotFound

  datatype Account<S, O> =
    Account(initialCash: real,
            maxPositions: int,
            cash: real,
            realizedPnl: real,
            positions: map<S, Position>,
            reservations: map<O, Reservation<S>>,
            fills: seq<FillEvent<S, O>>)

  /** Snap a residual within one epsilon of zero to zero; refuse one below minus epsilon. */
  function Residual(value: real): (r: Result<real, AccountError>)
    ensures r.Failure? <==> value < -MONEY_EPSILON
    ensures r.Success? ==> r.value >= 0.0 && value - MONEY_EPSILON <= r.value <= value + MONEY_EPSILON
    ensures value > MONEY_EPSILON ==> r == Success(value)
  {
    if value < -MONEY_EPSILON then Failure(NegativeResidual)
    else if value <= MONEY_EPSILON then Success(0.0)
    else Success(value)
  }

  function Min(a: real, b: real): real { if b < a then b else a }

  /** Cash that buying takes, cash that selling brings, and the profit selling books. */
  function Paid(quantity: int, price: real, fees: real): real { quantity as real * price + fees }

  function Proceeds(quantity: int, price: real, fees: real): real { quantity as real * price - fees }

  function Gain(quantity: int, price: real, averageCost: real, fees: real): real {
    quantity as real * (price - averageCost) - fees
  }

  ghost function ReservedCash<S, O>(reservations: map<O, Reservation<S>>): real {
    Sum(reservations, (r: Reservation<S>) => r.reservedCash)
  }

  function SellShare<S(==)>(r: Reservation<S>, symbol: S): real {
    if r.side.Sell? && r.symbol == symbol then r.remaining as real else 0.0
  }

  /** Shares of `symbol` already promised to working sell orders. */
  ghost function SellReserved<S, O>(reservations: map<O, Reservation<S>>, symbol: S): real {
    Sum(reservations, (r: Reservation<S>) => SellShare(r, symbol))
  }

  ghost function TotalCost<S>(positions: map<S, Position>): real {
    Sum(positions, (p: Position) => p.CostBasis())
  }

  ghost function Equity<S, O>(a: Account<S, O>): real {
    a.cash + Sum(a.positions, (p: Position) => p.MarketValue())
  }

  function Held<S, O>(a: Account<S, O>, symbol: S): int {
    if symbol in a.positions then a.positions[symbol].quantity else 0
  }

  ghost function BuySymbols<S, O>(reservations: map<O, Reservation<S>>): set<S> {
    Union(reservations, (r: Reservation<S>) => if r.side.Buy? then {r.symbol} else {})
  }

  /** Symbols that are held or have a working buy. */
  ghost function Occupied<S, O>(a: Account<S, O>): set<S> {
    set s | s in a.positions.Keys + BuySymbols(a.reservations)
  }

  ghost function AvailableCash<S, O>(a: Account<S, O>): Result<real, AccountError> {
    Residual(a.cash - ReservedCash(a.reservations))
  }

  // ----- Operations -----

  function Open<S, O>(initialCash: real, maxPositions: int): Account<S, O> {
    Account(initialCash, maxPositions, initialCash, 0.0, map[], map[], [])
  }

  ghost function ReserveCash<S, O>(a: Account<S, O>, id: O, symbol: S, quantity: int, cost: real)
    : Result<Account<S, O>, AccountError>
  {
    var available :- AvailableCash(a);
    if cost > available + MONEY_EPSILON then Failure(ExceedsAvailableCash)
    else Success(a.(reservations := a.reservations[id := Reservation(symbol, Buy, quantity, Min(cost, available))]))
  }

  ghost function ReserveShares<S, O>(a: Account<S, O>, id: O, symbol: S, quantity: int)
    : Result<Account<S, O>, AccountError>
  {
    if quantity as real > Held(a, symbol) as real - SellReserved(a.reservations, symbol) then
      Failure(ExceedsHeldQuantity)
    else
      Success(a.(reservations := a.reservations[id := Reservation(symbol, Sell, quantity, 0.0)]))
  }

  ghost function Reserve<S, O>(a: Account<S, O>, id: O, symbol: S, side: Side, quantity: int,
                               price: real, fees: real): Result<Account<S, O>, AccountError>
  {
    if id in a.reservations then Failure(DuplicateReservation)
    else if quantity <= 0 then Failure(NonPositiveQuantity)
    else if price <= 0.0 then Failure(NonPositivePrice)
    else if fees < 0.0 then Failure(NegativeFees)
    else
      match side
      case Buy =>
        if symbol !in Occupied(a) && |Occupied(a)| >= a.maxPositions then Failure(TooManyPositions)
        else ReserveCash(a, id, symbol, quantity, Paid(quantity, price, fees))
      case Sell =>
        ReserveShares(a, id, symbol, quantity)
  }

  function Shrunk<S, O>(reservations: map<O, Reservation<S>>, id: O, left: int, cash: real): map<O, Reservation<S>>
    requires id in reservations
  {
    if left == 0 then reservations - {id}
    else reservations[id := reservations[id].(remaining := left, reservedCash := cash)]
  }

  /** The reserved cash a fill of `quantity` shares sets free. */
  function Released<S>(r: Reservation<S>, quantity: int): real
    requires r.remaining != 0
  {
    if quantity == r.remaining then r.reservedCash
    else r.reservedCash * quantity as real / r.remaining as real
  }

  /** The position after buying `quantity` shares for `paid` in all, averaged over the old ones. */
  function Bought(before: Option<Position>, quantity: int, paid: real, price: real): Result<Position, AccountError> {
    var held := quantity + (if before.Some? then before.value.quantity else 0);
    var basis := paid + (if before.Some? then before.value.CostBasis() else 0.0);
    if held <= 0 then Failure(NonPositiveQuantity)
    else if basis / held as real <= 0.0 then Failure(NonPositivePrice)
    else Success(Position(held, basis / held as real, price))
  }

  function Lookup<K, V>(m: map<K, V>, k: K): Option<V> {
    if k in m then Some(m[k]) else None
  }

  ghost function FillBuy<S, O>(a: Account<S, O>, id: O, quantity: int, price: real, fees: real)
    : Result<Account<S, O>, AccountError>
    requires id in a.reservations && 0 < quantity <= a.reservations[id].remaining
  {
    var r := a.reservations[id];
    var paid := Paid(quantity, price, fees);
    var kept :- Residual(r.reservedCash - Released(r, quantity));
    var position := Bought(Lookup(a.positions, r.symbol), quantity, paid, price);
    SettleBuy(a, id, quantity, price, fees, kept, paid, position)
  }

  ghost function SettleBuy<S, O>(a: Account<S, O>, id: O, quantity: int, price: real, fees: real,
                                 kept: real, paid: real, position: Result<Position, AccountError>)
    : Result<Account<S, O>, AccountError>
    requires id in a.reservations
  {
    var r := a.reservations[id];
    if a.cash - paid < ReservedCash(a.reservations) - r.reservedCash + kept - MONEY_EPSILON then
      Failure(FillExceedsCash)
    else
      var cash :- Residual(a.cash - paid);
      var next :- position;
      Success(a.(cash := cash,
                 positions := a.positions[r.symbol := next],
                 reservations := Shrunk(a.reservations, id, r.remaining - quantity, kept),
                 fills := a.fills + [FillEvent(id, r.symbol, Buy, quantity, price, fees, None)]))
  }

  ghost function FillSell<S, O>(a: Account<S, O>, id: O, quantity: int, price: real, fees: real,
                                reason: Option<ExitReason>): Result<Account<S, O>, AccountError>
    requires id in a.reservations
  {
    var r := a.reservations[id];
    if r.symbol !in a.positions || quantity > a.positions[r.symbol].quantity then Failure(ShortPosition)
    else
      SettleSell(a, id, quantity, price, fees, reason,
                 Proceeds(quantity, price, fees), Gain(quantity, price, a.positions[r.symbol].averageCost, fees))
  }

  /** What is left of `m` after selling `quantity` shares of `symbol` at `price`. */
  function Sold<S>(m: map<S, Position>, symbol: S, quantity: int, price: real): map<S, Position>
    requires symbol in m
  {
    if m[symbol].quantity == quantity then m - {symbol}
    else m[symbol := m[symbol].(quantity := m[symbol].quantity - quantity, marketPrice := price)]
  }

  ghost function SettleSell<S, O>(a: Account<S, O>, id: O, quantity: int, price: real, fees: real,
                                  reason: Option<ExitReason>, received: real, realized: real)
    : Result<Account<S, O>, AccountError>
    requires id in a.reservations && a.reservations[id].symbol in a.positions
  {
    var r := a.reservations[id];
    if a.cash + received < -MONEY_EPSILON then Failure(NegativeCash)
    else
      Success(a.(cash := Residual(a.cash + received).value,
                 realizedPnl := a.realizedPnl + realized,
                 positions := Sold(a.positions, r.symbol, quantity, price),
                 reservations := Shrunk(a.reservations, id, r.remaining - quantity, 0.0),
                 fills := a.fills + [FillEvent(id, r.symbol, Sell, quantity, price, fees,
                                               Some(if reason.None? then Strategy else reason.value))]))
  }

  ghost function Fill<S, O>(a: Account<S, O>, id: O, quantity: int, price: real, fees: real,
                            reason: Option<ExitReason>): Result<Account<S, O>, AccountError>
  {
    if quantity <= 0 then Failure(NonPositiveQuantity)
    else if price <= 0.0 then Failure(NonPositivePrice)
    else if fees < 0.0 then Failure(NegativeFees)
    else if id !in a.reservations then Failure(ReservationNotFound)
    else if quantity > a.reservations[id].remaining then Failure(ExceedsReservation)
    else if a.reservations[id].side.Buy? then FillBuy(a, id, quantity, price, fees)
    else FillSell(a, id, quantity, price, fees, reason)
  }

  function Cancel<S, O>(a: Account<S, O>, id: O): Result<Account<S, O>, AccountError> {
    if id !in a.reservations then Failure(ReservationNotFound)
    else Success(a.(reservations := a.reservations - {id}))
  }

  function Mark<S, O>(a: Account<S, O>, symbol: S, price: real): Result<Account<S, O>, AccountError> {
    if price <= 0.0 then Failure(NonPositivePrice)
    else if symbol !in a.positions then Failure(PositionNotFound)
    else Success(a.(positions := a.positions[symbol := a.positions[symbol].(marketPrice := price)]))
  }

  // ----- Invariant -----

  ghost predicate PositionsOk<S>(positions: map<S, Position>) {
    forall s :: s in positions ==>
      positions[s].quantity > 0 && positions[s].averageCost > 0.0 && positions[s].marketPrice > 0.0
  }

  ghost predicate ReservationsOk<S, O>(reservations: map<O, Reservation<S>>) {
    forall id :: id in reservations ==>
      && reservations[id].remaining > 0
      && reservations[id].reservedCash >= 0.0
      && (reservations[id].side.Sell? ==> reservations[id].reservedCash == 0.0)
  }

  /** Sell orders never promise more shares than are held. */
  ghost predicate NeverOversold<S(!new), O>(a: Account<S, O>) {
    forall s :: SellReserved(a.reservations, s) <= Held(a, s) as real
  }

  /** What the cash books fail to explain: zero in exact arithmetic without snapping. */
  ghost function Drift<S, O>(a: Account<S, O>): real {
    a.cash + TotalCost(a.positions) - a.realizedPnl - a.initialCash
  }

  /** One epsilon for each fill. */
  function Tolerance(fills: nat): real { fills as real * MONEY_EPSILON }

  ghost predicate Balanced<S, O>(a: Account<S, O>) {
    -Tolerance(|a.fills|) <= Drift(a) <= Tolerance(|a.fills|)
  }

  ghost predicate Inv<S(!new), O>(a: Account<S, O>) {
    Sound(a) && Balanced(a)
  }

  ghost predicate Sound<S(!new), O>(a: Account<S, O>) {
    && a.initialCash >= 0.0
    && a.maxPositions >= 1
    && a.cash >= 0.0
    && PositionsOk(a.positions)
    && ReservationsOk(a.reservations)
    && NeverOversold(a)
    && |Occupied(a)| <= a.maxPositions
  }

  // ----- Sums under single-key updates -----

  lemma ReservedCashPut<S, O>(m: map<O, Reservation<S>>, id: O, r: Reservation<S>)
    ensures ReservedCash(m[id := r]) == r.reservedCash + ReservedCash(m - {id})
    ensures id !in m ==> ReservedCash(m[id := r]) == r.reservedCash + ReservedCash(m)
  {
    SumPut(m, (r: Reservation<S>) => r.reservedCash, id, r);
  }

  lemma ReservedCashTake<S, O>(m: map<O, Reservation<S>>, id: O)
    requires id in m
    ensures ReservedCash(m) == m[id].reservedCash + ReservedCash(m - {id})
  {
    SumTake(m, (r: Reservation<S>) => r.reservedCash, id);
  }

  lemma ReservedCashNonNegative<S, O>(m: map<O, Reservation<S>>)
    requires ReservationsOk(m)
    ensures ReservedCash(m) >= 0.0
  {
    SumNonNegative(m, (r: Reservation<S>) => r.reservedCash);
  }

  lemma SellReservedTake<S, O>(m: map<O, Reservation<S>>, id: O, symbol: S)
    requires id in m
    ensures SellReserved(m, symbol) == SellShare(m[id], symbol) + SellReserved(m - {id}, symbol)
  {
    SumTake(m, (r: Reservation<S>) => SellShare(r, symbol), id);
  }

  lemma SellReservedPut<S, O>(m: map<O, Reservation<S>>, id: O, r: Reservation<S>, symbol: S)
    ensures SellReserved(m[id := r], symbol) == SellShare(r, symbol) + SellReserved(m - {id}, symbol)
    ensures id !in m ==> SellReserved(m[id := r], symbol) == SellShare(r, symbol) + SellReserved(m, symbol)
  {
    SumPut(m, (r: Reservation<S>) => SellShare(r, symbol), id, r);
  }

  lemma SellReservedBoundsEach<S, O>(m: map<O, Reservation<S>>, id: O)
    requires ReservationsOk(m) && id in m && m[id].side.Sell?
    ensures m[id].remaining as real <= SellReserved(m, m[id].symbol)
  {
    SumBoundsEach(m, (r: Reservation<S>) => SellShare(r, m[id].symbol), id);
  }

  lemma TotalCostPut<S>(m: map<S, Position>, s: S, p: Position)
    ensures TotalCost(m[s := p]) == p.CostBasis() + TotalCost(m - {s})
    ensures s !in m ==> TotalCost(m[s := p]) == p.CostBasis() + TotalCost(m)
  {
    SumPut(m, (p: Position) => p.CostBasis(), s, p);
  }

  lemma TotalCostTake<S>(m: map<S, Position>, s: S)
    requires s in m
    ensures TotalCost(m) == m[s].CostBasis() + TotalCost(m - {s})
  {
    SumTake(m, (p: Position) => p.CostBasis(), s);
  }

  lemma BuySymbolsPut<S(!new), O>(m: map<O, Reservation<S>>, id: O, r: Reservation<S>)
    ensures forall s :: s in BuySymbols(m[id := r]) <==> (r.side.Buy? && s == r.symbol) || s in BuySymbols(m - {id})
    ensures id !in m ==>
              forall s :: s in BuySymbols(m[id := r]) <==> (r.side.Buy? && s == r.symbol) || s in BuySymbols(m)
  {
    BuySymbolsTake(m[id := r], id);
    assert m[id := r] - {id} == m - {id};
    assert id !in m ==> m - {id} == m;
  }

  lemma BuySymbolsTake<S(!new), O>(m: map<O, Reservation<S>>, id: O)
    requires id in m
    ensures forall s :: s in BuySymbols(m) <==> (m[id].side.Buy? && s == m[id].symbol) || s in BuySymbols(m - {id})
  {
    UnionTake(m, (r: Reservation<S>) => if r.side.Buy? then {r.symbol} else {}, id);
    assert BuySymbols(m) == (if m[id].side.Buy? then {m[id].symbol} else {}) + BuySymbols(m - {id});
  }
}
