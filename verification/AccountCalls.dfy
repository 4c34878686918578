/** What each portfolio call does, told in shares and money: when it is granted, what it changes, and
    how it moves the totals. */
module AccountCalls {
  import opened Wrappers
  import opened Sums
  import opened Accounts
  import opened AccountLaws
  import opened CashCover

  // ----- What is occupied, promised and worth -----

  lemma {:induction false} BuySymbolsAre<S(!new), O(!new)>(m: map<O, Reservation<S>>, symbol: S)
    ensures symbol in BuySymbols(m) <==> exists id :: id in m && m[id].side.Buy? && m[id].symbol == symbol
    decreases |m|
  {
    if m != map[] {
      var one :| one in m;
      BuySymbolsTake(m, one);
      BuySymbolsAre(m - {one}, symbol);
      if id :| id in m && m[id].side.Buy? && m[id].symbol == symbol {
        assert id == one || id in m - {one};
      }
    }
  }

  /** Held, or wanted by a working buy. */
  lemma OccupiedAre<S(!new), O(!new)>(a: Account<S, O>, symbol: S)
    ensures symbol in Occupied(a) <==>
            symbol in a.positions || exists id :: id in a.reservations && a.reservations[id].side.Buy? &&
                                                  a.reservations[id].symbol == symbol
  {
    BuySymbolsAre(a.reservations, symbol);
  }

  lemma ValueTake<S>(m: map<S, Position>, s: S)
    requires s in m
    ensures Sum(m, (p: Position) => p.MarketValue()) ==
            m[s].MarketValue() + Sum(m - {s}, (p: Position) => p.MarketValue())
  {
    SumTake(m, (p: Position) => p.MarketValue(), s);
  }

  /** Equity is the cash, and for every position its shares at their market price. */
  lemma EquityTake<S, O>(a: Account<S, O>, s: S)
    ensures a.positions == map[] ==> Equity(a) == a.cash
    ensures s in a.positions ==>
              Equity(a) == a.positions[s].quantity as real * a.positions[s].marketPrice +
                           Equity(a.(positions := a.positions - {s}))
  {
    if s in a.positions {
      ValueTake(a.positions, s);
    }
  }

  /** Marking a position moves the equity by its shares times the move of the price. */
  lemma MarkMovesEquity<S, O>(a: Account<S, O>, s: S, price: real)
    ensures Mark(a, s, price).Success? <==> price > 0.0 && s in a.positions
    ensures Mark(a, s, price).Success? ==>
              var b := Mark(a, s, price).value;
              && Equity(b) == Equity(a) + a.positions[s].quantity as real * (price - a.positions[s].marketPrice)
              && b.positions.Keys == a.positions.Keys && b.positions[s] == a.positions[s].(marketPrice := price)
              && b == a.(positions := a.positions[s := b.positions[s]])
  {
    if price > 0.0 && s in a.positions {
      var b := Mark(a, s, price).value;
      EquityTake(a, s);
      EquityTake(b, s);
      assert b.positions - {s} == a.positions - {s};
    }
  }

  // ----- Reserving -----

  /** A buy is granted for a new id, a positive quantity and price and fees that are not negative, when
      its symbol is occupied already or there is room for one more, and when the cash not promised
      to other orders covers it to within one epsilon.  It then sets that cost aside. */
  lemma BuyReservation<S(!new), O(!new)>(a: Account<S, O>, id: O, symbol: S, quantity: int, price: real, fees: real,
                                         cost: real)
    requires Inv(a) && cost == quantity as real * price + fees
    ensures var r := Reserve(a, id, symbol, Buy, quantity, price, fees);
            && (r.Success? <==>
                  && id !in a.reservations && quantity > 0 && price > 0.0 && fees >= 0.0
                  && (symbol in Occupied(a) || |Occupied(a)| < a.maxPositions)
                  && Covered(a) && cost <= AvailableCash(a).value + MONEY_EPSILON)
            && (r.Success? ==> SetsAside(a, r.value, id, symbol, quantity, cost))
  {
    assert Paid(quantity, price, fees) == cost;
    var r := Reserve(a, id, symbol, Buy, quantity, price, fees);
    if r.Success? {
      assert r == ReserveCash(a, id, symbol, quantity, cost);
      CashSetAside(a, id, symbol, quantity, cost);
    }
  }

  /** One more buy works, with its cost reserved to within one epsilon. */
  ghost predicate SetsAside<S, O>(a: Account<S, O>, b: Account<S, O>, id: O, symbol: S, quantity: int, cost: real) {
    && b == a.(reservations := b.reservations) && id in b.reservations && b.reservations - {id} == a.reservations
    && b.reservations[id] == Reservation(symbol, Buy, quantity, b.reservations[id].reservedCash)
    && cost - MONEY_EPSILON <= b.reservations[id].reservedCash <= cost
    && ReservedCash(b.reservations) == ReservedCash(a.reservations) + b.reservations[id].reservedCash
  }

  lemma CashSetAside<S(!new), O(!new)>(a: Account<S, O>, id: O, symbol: S, quantity: int, cost: real)
    requires id !in a.reservations
    ensures var r := ReserveCash(a, id, symbol, quantity, cost);
            r.Success? ==> SetsAside(a, r.value, id, symbol, quantity, cost)
  {
    var r := ReserveCash(a, id, symbol, quantity, cost);
    if r.Success? {
      ReservedCashPut(a.reservations, id, r.value.reservations[id]);
    }
  }

  /** A sell is granted when the shares not promised to other sells suffice; it sets no cash aside. */
  lemma SellReservation<S(!new), O(!new)>(a: Account<S, O>, id: O, symbol: S, quantity: int, price: real, fees: real)
    ensures var r := Reserve(a, id, symbol, Sell, quantity, price, fees);
            && (r.Success? <==>
                  && id !in a.reservations && quantity > 0 && price > 0.0 && fees >= 0.0
                  && quantity as real + SellReserved(a.reservations, symbol) <= Held(a, symbol) as real)
            && (r.Success? ==>
                  var b := r.value;
                  && b == a.(reservations := b.reservations) && id in b.reservations
                  && b.reservations - {id} == a.reservations
                  && b.reservations[id] == Reservation(symbol, Sell, quantity, 0.0)
                  && SellReserved(b.reservations, symbol) == SellReserved(a.reservations, symbol) + quantity as real
                  && ReservedCash(b.reservations) == ReservedCash(a.reservations))
  {
    var r := Reserve(a, id, symbol, Sell, quantity, price, fees);
    if r.Success? {
      ReservedCashPut(a.reservations, id, r.value.reservations[id]);
      SellReservedPut(a.reservations, id, r.value.reservations[id], symbol);
    }
  }

  /** Each refusal names its reason. */
  lemma RefusedReservation<S(!new), O(!new)>(a: Account<S, O>, id: O, symbol: S, side: Side, quantity: int,
                                             price: real, fees: real)
    ensures var r := Reserve(a, id, symbol, side, quantity, price, fees);
            r.Failure? ==>
              match r.error
              case DuplicateReservation => id in a.reservations
              case NonPositiveQuantity => quantity <= 0
              case NonPositivePrice => price <= 0.0
              case NegativeFees => fees < 0.0
              case TooManyPositions => side.Buy? && symbol !in Occupied(a) && |Occupied(a)| >= a.maxPositions
              case NegativeResidual => side.Buy? && !Covered(a)
              case ExceedsAvailableCash =>
                side.Buy? && Covered(a) && Paid(quantity, price, fees) > AvailableCash(a).value + MONEY_EPSILON
              case ExceedsHeldQuantity =>
                side.Sell? && quantity as real + SellReserved(a.reservations, symbol) > Held(a, symbol) as real
              case _ => false
  {}

  // ----- Filling -----

  /** A call that fills is for a working order, for some of what remains of it, at a positive price. */
  lemma FillNeedsOrder<S, O>(a: Account<S, O>, id: O, quantity: int, price: real, fees: real,
                             reason: Option<ExitReason>)
    ensures Fill(a, id, quantity, price, fees, reason).Success? ==>
              id in a.reservations && 0 < quantity <= a.reservations[id].remaining && price > 0.0 && fees >= 0.0
  {}

  /** The reservation keeps its rate: what stays reserved is in proportion to what stays unfilled. */
  lemma KeptInProportion<S>(r: Reservation<S>, quantity: int)
    requires r.reservedCash >= 0.0 && 0 < quantity < r.remaining
    ensures (r.reservedCash - Released(r, quantity)) * r.remaining as real ==
            r.reservedCash * (r.remaining - quantity) as real
  {
    var c, q, n := r.reservedCash, quantity as real, r.remaining as real;
    assert c * q / n * n == c * q;
    assert (c - c * q / n) * n == c * n - c * q / n * n;
    assert c * (n - q) == c * n - c * q;
  }

  /** What a fill leaves of its order. */
  ghost predicate OrderShrinks<S, O>(a: Account<S, O>, b: Account<S, O>, id: O, quantity: int)
    requires id in a.reservations
  {
    var r := a.reservations[id];
    && b.reservations - {id} == a.reservations - {id}
    && (quantity == r.remaining ==> id !in b.reservations)
    && (quantity < r.remaining ==>
          && id in b.reservations
          && b.reservations[id] == r.(remaining := r.remaining - quantity,
                                      reservedCash := b.reservations[id].reservedCash))
  }

  /** The shares and what was paid for them join the position; the market price is that of the fill. */
  ghost predicate Adds<S>(before: map<S, Position>, after: map<S, Position>, s: S, quantity: int, paid: real,
                          price: real) {
    && s in after && after - {s} == before - {s}
    && after[s].quantity == quantity + (if s in before then before[s].quantity else 0)
    && after[s].CostBasis() == paid + (if s in before then before[s].CostBasis() else 0.0)
    && after[s].marketPrice == price
  }

  /** A buy is refused exactly when the cash left would fall short of what all working orders still
      have reserved.  Else the cost leaves the cash and joins the position. */
  lemma BuyFill<S(!new), O(!new)>(a: Account<S, O>, id: O, quantity: int, price: real, fees: real)
    requires Inv(a) && id in a.reservations && a.reservations[id].side.Buy?
    requires 0 < quantity <= a.reservations[id].remaining && price > 0.0 && fees >= 0.0
    ensures var r := a.reservations[id];
            var cost := quantity as real * price + fees;
            var kept := Residual(r.reservedCash - Released(r, quantity));
            var filled := Fill(a, id, quantity, price, fees, None);
            && kept.Success?
            && (filled.Failure? <==> a.cash - cost < ReservedCash(a.reservations - {id}) + kept.value - MONEY_EPSILON)
            && (filled.Success? ==>
                  var b := filled.value;
                  && a.cash - cost - MONEY_EPSILON <= b.cash <= a.cash - cost + MONEY_EPSILON
                  && Adds(a.positions, b.positions, r.symbol, quantity, cost, price)
                  && OrderShrinks(a, b, id, quantity)
                  && (quantity < r.remaining ==> b.reservations[id].reservedCash == kept.value)
                  && b.realizedPnl == a.realizedPnl && b.initialCash == a.initialCash
                  && b.maxPositions == a.maxPositions
                  && b.fills == a.fills + [FillEvent(id, r.symbol, Buy, quantity, price, fees, None)])
  {
    var r := a.reservations[id];
    KeptFacts(r, quantity);
    ReservedCashTake(a.reservations, id);
    PaidPositive(quantity, price, fees);
    BoughtShape(Lookup(a.positions, r.symbol), quantity, Paid(quantity, price, fees), price);
    FillBuyKeepsInv(a, id, quantity, price, fees);
  }

  /** A sell is refused exactly when its fees take the cash below minus one epsilon.  Else the proceeds
      join the cash, the shares leave the position at their average cost, and the difference is
      realised. */
  lemma SellFill<S(!new), O(!new)>(a: Account<S, O>, id: O, quantity: int, price: real, fees: real,
                                   reason: Option<ExitReason>)
    requires Inv(a) && id in a.reservations && a.reservations[id].side.Sell?
    requires 0 < quantity <= a.reservations[id].remaining && price > 0.0 && fees >= 0.0
    ensures var r := a.reservations[id];
            && r.symbol in a.positions && quantity <= a.positions[r.symbol].quantity
            && var p := a.positions[r.symbol];
            var proceeds := quantity as real * price - fees;
            var filled := Fill(a, id, quantity, price, fees, reason);
            && (filled.Failure? <==> a.cash + proceeds < -MONEY_EPSILON)
            && (filled.Success? ==>
                  var b := filled.value;
                  && a.cash + proceeds - MONEY_EPSILON <= b.cash <= a.cash + proceeds + MONEY_EPSILON
                  && b.positions - {r.symbol} == a.positions - {r.symbol}
                  && (quantity == p.quantity ==> r.symbol !in b.positions)
                  && (quantity < p.quantity ==>
                        && r.symbol in b.positions
                        && b.positions[r.symbol] == Position(p.quantity - quantity, p.averageCost, price))
                  && OrderShrinks(a, b, id, quantity)
                  && b.realizedPnl == a.realizedPnl + quantity as real * (price - p.averageCost) - fees
                  && b.initialCash == a.initialCash && b.maxPositions == a.maxPositions
                  && b.fills == a.fills + [FillEvent(id, r.symbol, Sell, quantity, price, fees,
                                                     if reason.None? then Some(Strategy) else reason)])
  {
    var r := a.reservations[id];
    SellReservedBoundsEach(a.reservations, id);
    assert SellReserved(a.reservations, r.symbol) <= Held(a, r.symbol) as real;
    FillSellKeepsInv(a, id, quantity, price, fees, reason);
  }

  /** Cancelling takes one order away and nothing else. */
  lemma CancelReleases<S, O>(a: Account<S, O>, id: O)
    ensures var r := Cancel(a, id);
            && (r.Success? <==> id in a.reservations)
            && (r.Success? ==>
                  && r.value == a.(reservations := r.value.reservations) && id !in r.value.reservations
                  && r.value.reservations[id := a.reservations[id]] == a.reservations
                  && ReservedCash(r.value.reservations) ==
                      ReservedCash(a.reservations) - a.reservations[id].reservedCash)
  {
    if id in a.reservations {
      ReservedCashTake(a.reservations, id);
    }
  }

  lemma RefusedFill<S(!new), O(!new)>(a: Account<S, O>, id: O, quantity: int, price: real, fees: real,
                                      reason: Option<ExitReason>)
    requires Inv(a)
    ensures var r := Fill(a, id, quantity, price, fees, reason);
            r.Failure? ==>
              match r.error
              case NonPositiveQuantity => quantity <= 0
              case NonPositivePrice => price <= 0.0
              case NegativeFees => fees < 0.0
              case ReservationNotFound => id !in a.reservations
              case ExceedsReservation => id in a.reservations && quantity > a.reservations[id].remaining
              case FillExceedsCash => id in a.reservations && a.reservations[id].side.Buy?
              case NegativeCash => id in a.reservations && a.reservations[id].side.Sell?
              case _ => false
  {
    if id in a.reservations && 0 < quantity <= a.reservations[id].remaining && price > 0.0 && fees >= 0.0 {
      if a.reservations[id].side.Buy? {
        FillBuyKeepsInv(a, id, quantity, price, fees);
      } else {
        FillSellKeepsInv(a, id, quantity, price, fees, reason);
      }
    }
  }
}
