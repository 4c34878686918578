/** What every sequence of portfolio calls keeps. */
module AccountLaws {
  import opened Wrappers
  import opened Accounts

  datatype Op<S, O> =
    | ReserveOp(id: O, symbol: S, side: Side, quantity: int, price: real, fees: real)
    | FillOp(id: O, quantity: int, price: real, fees: real, reason: Option<ExitReason>)
    | CancelOp(id: O)
    | MarkOp(symbol: S, price: real)

  ghost function Apply<S, O>(a: Account<S, O>, op: Op<S, O>): Result<Account<S, O>, AccountError> {
    match op
    case ReserveOp(id, symbol, side, quantity, price, fees) => Reserve(a, id, symbol, side, quantity, price, fees)
    case FillOp(id, quantity, price, fees, reason) => Fill(a, id, quantity, price, fees, reason)
    case CancelOp(id) => Cancel(a, id)
    case MarkOp(symbol, price) => Mark(a, symbol, price)
  }

  /** A caller that survives every exception and goes on. */
  ghost function Run<S, O>(a: Account<S, O>, ops: seq<Op<S, O>>): Account<S, O>
    decreases |ops|
  {
    if ops == [] then a
    else
      var before := Run(a, ops[..|ops| - 1]);
      var step := Apply(before, ops[|ops| - 1]);
      if step.Success? then step.value else before
  }

  // ----- Real arithmetic, one step at a time -----

  lemma ProductPositive(q: int, x: real)
    requires q > 0 && x > 0.0
    ensures q as real * x > 0.0
  {}

  lemma ProductSplits(n: int, q: int, x: real)
    ensures (n - q) as real * x == n as real * x - q as real * x
  {}

  lemma PaidPositive(q: int, x: real, fees: real)
    requires q > 0 && x > 0.0 && fees >= 0.0
    ensures Paid(q, x, fees) > 0.0
  {
    ProductPositive(q, x);
  }

  lemma GainIsProceedsLessCost(q: int, price: real, averageCost: real, fees: real)
    ensures Gain(q, price, averageCost, fees) == Proceeds(q, price, fees) - q as real * averageCost
  {}

  lemma QuotientPositive(basis: real, q: int)
    requires q > 0 && basis > 0.0
    ensures basis / q as real > 0.0
  {}

  lemma QuotientRestores(basis: real, q: int)
    requires q > 0
    ensures q as real * (basis / q as real) == basis
  {}

  lemma ReleasedBounds<S>(r: Reservation<S>, quantity: int)
    requires r.reservedCash >= 0.0 && 0 < quantity <= r.remaining
    ensures 0.0 <= Released(r, quantity) <= r.reservedCash
    ensures quantity == r.remaining ==> Released(r, quantity) == r.reservedCash
  {
    var c, q, n := r.reservedCash, quantity as real, r.remaining as real;
    assert c * q <= c * n;
    assert c * q / n * n == c * q;
  }

  // ----- Each call keeps the invariant -----

  /** A set that gained at most `x` still fits into `n`, when `x` was in it or there was room. */
  lemma RoomForOne<T>(a: set<T>, b: set<T>, x: T, n: int)
    requires forall y :: y in b ==> y in a || y == x
    requires x in a || |a| < n
    requires |a| <= n
    ensures |b| <= n
  {
    assert b <= a + {x};
    assert a + {x} == b + (a + {x} - b);
  }

  lemma SubsetFits<T>(a: set<T>, b: set<T>, n: int)
    requires forall y :: y in b ==> y in a
    requires |a| <= n
    ensures |b| <= n
  {
    assert a == b + (a - b);
  }

  lemma ReserveCashKeepsInv<S(!new), O>(a: Account<S, O>, id: O, symbol: S, quantity: int, cost: real)
    requires Inv(a) && id !in a.reservations && quantity > 0 && cost >= 0.0
    requires symbol in Occupied(a) || |Occupied(a)| < a.maxPositions
    ensures var r := ReserveCash(a, id, symbol, quantity, cost); r.Success? ==> Inv(r.value)
  {
    var r := ReserveCash(a, id, symbol, quantity, cost);
    if r.Success? {
      var b := r.value;
      forall s ensures SellReserved(b.reservations, s) <= Held(b, s) as real {
        SellReservedPut(a.reservations, id, b.reservations[id], s);
        assert Held(a, s) == Held(b, s);
      }
      BuySymbolsPut(a.reservations, id, b.reservations[id]);
      RoomForOne(Occupied(a), Occupied(b), symbol, a.maxPositions);
    }
  }

  lemma ReserveSharesKeepsInv<S(!new), O>(a: Account<S, O>, id: O, symbol: S, quantity: int)
    requires Inv(a) && id !in a.reservations && quantity > 0
    ensures var r := ReserveShares(a, id, symbol, quantity); r.Success? ==> Inv(r.value)
  {
    var r := ReserveShares(a, id, symbol, quantity);
    if r.Success? {
      var b := r.value;
      forall s ensures SellReserved(b.reservations, s) <= Held(b, s) as real {
        SellReservedPut(a.reservations, id, b.reservations[id], s);
        assert Held(a, s) == Held(b, s);
      }
      BuySymbolsPut(a.reservations, id, b.reservations[id]);
      SubsetFits(Occupied(a), Occupied(b), a.maxPositions);
    }
  }

  lemma CancelKeepsInv<S(!new), O>(a: Account<S, O>, id: O)
    requires Inv(a) && id in a.reservations
    ensures Inv(Cancel(a, id).value)
  {
    var b := Cancel(a, id).value;
    forall s ensures SellReserved(b.reservations, s) <= Held(b, s) as real {
      SellReservedTake(a.reservations, id, s);
      assert Held(a, s) == Held(b, s);
    }
    BuySymbolsTake(a.reservations, id);
    SubsetFits(Occupied(a), Occupied(b), a.maxPositions);
  }

  lemma MarkKeepsInv<S(!new), O>(a: Account<S, O>, symbol: S, price: real)
    requires Inv(a)
    ensures var r := Mark(a, symbol, price); r.Success? ==> Inv(r.value)
  {
    var r := Mark(a, symbol, price);
    if r.Success? {
      var b := r.value;
      assert b.positions[symbol].CostBasis() == a.positions[symbol].CostBasis();
      TotalCostTake(a.positions, symbol);
      TotalCostPut(a.positions, symbol, b.positions[symbol]);
      forall s ensures SellReserved(b.reservations, s) <= Held(b, s) as real {
        assert Held(a, s) == Held(b, s);
      }
      SubsetFits(Occupied(a), Occupied(b), a.maxPositions);
    }
  }

  /** The reservations left after filling `quantity` of order `id`. */
  lemma ShrunkFacts<S(!new), O>(m: map<O, Reservation<S>>, id: O, quantity: int, cash: real)
    requires ReservationsOk(m) && id in m && 0 < quantity <= m[id].remaining && cash >= 0.0
    requires m[id].side.Sell? ==> cash == 0.0
    requires quantity == m[id].remaining ==> cash == 0.0
    ensures var n := Shrunk(m, id, m[id].remaining - quantity, cash);
            && ReservationsOk(n)
            && (forall s :: s in BuySymbols(n) ==> s in BuySymbols(m))
            && ReservedCash(n) == ReservedCash(m) - m[id].reservedCash + cash
            && forall s :: SellReserved(n, s) ==
                           SellReserved(m, s) -
                           (if m[id].side.Sell? && m[id].symbol == s then quantity as real else 0.0)
  {
    var n := Shrunk(m, id, m[id].remaining - quantity, cash);
    ReservedCashTake(m, id);
    BuySymbolsTake(m, id);
    if quantity < m[id].remaining {
      ReservedCashPut(m, id, n[id]);
      BuySymbolsPut(m, id, n[id]);
    }
    forall s ensures SellReserved(n, s) ==
                     SellReserved(m, s) - (if m[id].side.Sell? && m[id].symbol == s then quantity as real else 0.0)
    {
      SellReservedTake(m, id, s);
      if quantity < m[id].remaining {
        SellReservedPut(m, id, n[id], s);
      }
    }
  }

  function BasisOf(p: Option<Position>): real { if p.Some? then p.value.CostBasis() else 0.0 }

  lemma BoughtShape(before: Option<Position>, quantity: int, paid: real, price: real)
    requires before.Some? ==> before.value.quantity > 0 && before.value.averageCost > 0.0
    requires quantity > 0 && paid > 0.0
    ensures var p := Bought(before, quantity, paid, price);
            && p.Success?
            && p.value.quantity == quantity + (if before.Some? then before.value.quantity else 0)
            && p.value.averageCost > 0.0 && p.value.marketPrice == price
            && p.value.CostBasis() == paid + BasisOf(before)
  {
    var held := quantity + (if before.Some? then before.value.quantity else 0);
    if before.Some? {
      ProductPositive(before.value.quantity, before.value.averageCost);
    }
    QuotientPositive(paid + BasisOf(before), held);
    QuotientRestores(paid + BasisOf(before), held);
  }

  lemma BoughtFacts<S>(m: map<S, Position>, s: S, quantity: int, paid: real, price: real)
    requires PositionsOk(m) && quantity > 0 && paid > 0.0 && price > 0.0
    ensures var p := Bought(Lookup(m, s), quantity, paid, price);
            && p.Success?
            && p.value.quantity == quantity + (if s in m then m[s].quantity else 0)
            && p.value.averageCost > 0.0 && p.value.marketPrice == price
            && TotalCost(m[s := p.value]) == TotalCost(m) + paid
  {
    BoughtShape(Lookup(m, s), quantity, paid, price);
    if s in m {
      TotalCostTake(m, s);
    }
    TotalCostPut(m, s, Bought(Lookup(m, s), quantity, paid, price).value);
  }

  lemma SettleBuyKeepsInv<S(!new), O>(a: Account<S, O>, id: O, quantity: int, price: real, fees: real,
                                      kept: real, paid: real, position: Position)
    requires Inv(a) && id in a.reservations && a.reservations[id].side.Buy?
    requires 0 < quantity <= a.reservations[id].remaining
    requires kept >= 0.0 && (quantity == a.reservations[id].remaining ==> kept == 0.0)
    requires position.quantity == Held(a, a.reservations[id].symbol) + quantity
    requires position.averageCost > 0.0 && position.marketPrice > 0.0
    requires TotalCost(a.positions[a.reservations[id].symbol := position]) == TotalCost(a.positions) + paid
    ensures var r := SettleBuy(a, id, quantity, price, fees, kept, paid, Success(position));
            && (r.Success? ==> Inv(r.value))
            && (r.Failure? ==> r.error == FillExceedsCash)
  {
    ReservedCashTake(a.reservations, id);
    ReservedCashNonNegative(a.reservations - {id});
    ShrunkFacts(a.reservations, id, quantity, kept);
    var r := SettleBuy(a, id, quantity, price, fees, kept, paid, Success(position));
    if r.Success? {
      var b := r.value;
      BuySymbolsTake(a.reservations, id);
      forall s ensures SellReserved(b.reservations, s) <= Held(b, s) as real {
        assert Held(b, s) >= Held(a, s);
      }
      SubsetFits(Occupied(a), Occupied(b), a.maxPositions);
    }
  }

  /** What stays reserved after a partial fill. */
  lemma KeptFacts<S>(r: Reservation<S>, quantity: int)
    requires r.reservedCash >= 0.0 && 0 < quantity <= r.remaining
    ensures var kept := Residual(r.reservedCash - Released(r, quantity));
            kept.Success? && kept.value >= 0.0 && (quantity == r.remaining ==> kept.value == 0.0)
  {
    ReleasedBounds(r, quantity);
  }

  lemma FillBuyKeepsInv<S(!new), O>(a: Account<S, O>, id: O, quantity: int, price: real, fees: real)
    requires Inv(a) && id in a.reservations && a.reservations[id].side.Buy?
    requires 0 < quantity <= a.reservations[id].remaining && price > 0.0 && fees >= 0.0
    ensures var r := FillBuy(a, id, quantity, price, fees);
            && (r.Success? ==> Inv(r.value))
            && (r.Failure? ==> r.error == FillExceedsCash)
  {
    var res := a.reservations[id];
    var paid := Paid(quantity, price, fees);
    PaidPositive(quantity, price, fees);
    KeptFacts(res, quantity);
    BoughtFacts(a.positions, res.symbol, quantity, paid, price);
    var kept := Residual(res.reservedCash - Released(res, quantity)).value;
    var position := Bought(Lookup(a.positions, res.symbol), quantity, paid, price).value;
    SettleBuyKeepsInv(a, id, quantity, price, fees, kept, paid, position);
  }

  lemma SoldFacts<S>(m: map<S, Position>, s: S, quantity: int, price: real)
    requires PositionsOk(m) && s in m && 0 < quantity <= m[s].quantity && price > 0.0
    ensures PositionsOk(Sold(m, s, quantity, price))
    ensures TotalCost(Sold(m, s, quantity, price)) == TotalCost(m) - quantity as real * m[s].averageCost
  {
    TotalCostTake(m, s);
    if quantity < m[s].quantity {
      var p := m[s].(quantity := m[s].quantity - quantity, marketPrice := price);
      assert p.CostBasis() == m[s].CostBasis() - quantity as real * m[s].averageCost by {
        ProductSplits(m[s].quantity, quantity, m[s].averageCost);
      }
      TotalCostPut(m, s, p);
    }
  }

  lemma SettleSellKeepsInv<S(!new), O>(a: Account<S, O>, id: O, quantity: int, price: real, fees: real,
                                       reason: Option<ExitReason>, received: real, realized: real)
    requires Inv(a) && id in a.reservations && a.reservations[id].side.Sell? && price > 0.0
    requires 0 < quantity <= a.reservations[id].remaining
    requires a.reservations[id].symbol in a.positions
    requires quantity <= a.positions[a.reservations[id].symbol].quantity
    requires PositionsOk(Sold(a.positions, a.reservations[id].symbol, quantity, price))
    requires TotalCost(Sold(a.positions, a.reservations[id].symbol, quantity, price)) ==
             TotalCost(a.positions) - (received - realized)
    ensures var r := SettleSell(a, id, quantity, price, fees, reason, received, realized);
            && (r.Success? ==> Inv(r.value))
  {
    ShrunkFacts(a.reservations, id, quantity, 0.0);
    var r := SettleSell(a, id, quantity, price, fees, reason, received, realized);
    if r.Success? {
      var b := r.value;
      SubsetFits(Occupied(a), Occupied(b), a.maxPositions);
      forall s ensures SellReserved(b.reservations, s) <= Held(b, s) as real {
        assert SellReserved(a.reservations, s) <= Held(a, s) as real;
      }
    }
  }

  lemma FillSellKeepsInv<S(!new), O>(a: Account<S, O>, id: O, quantity: int, price: real, fees: real,
                                     reason: Option<ExitReason>)
    requires Inv(a) && id in a.reservations && a.reservations[id].side.Sell?
    requires 0 < quantity <= a.reservations[id].remaining && price > 0.0
    ensures var r := FillSell(a, id, quantity, price, fees, reason);
            && (r.Success? ==> Inv(r.value))
            && (r.Failure? ==> r.error == NegativeCash)
            && (r.Failure? <==> a.cash + Proceeds(quantity, price, fees) < -MONEY_EPSILON)
  {
    var res := a.reservations[id];
    SellReservedBoundsEach(a.reservations, id);
    assert SellReserved(a.reservations, res.symbol) <= Held(a, res.symbol) as real;
    var p := a.positions[res.symbol];
    SoldFacts(a.positions, res.symbol, quantity, price);
    GainIsProceedsLessCost(quantity, price, p.averageCost, fees);
    SettleSellKeepsInv(a, id, quantity, price, fees, reason,
                       Proceeds(quantity, price, fees), Gain(quantity, price, p.averageCost, fees));
  }

  /** A call that succeeds keeps the invariant; the errors the code guards against with
      "short position" and "residual must not be negative" are never the reason a fill fails. */
  lemma StepKeepsInv<S(!new), O>(a: Account<S, O>, op: Op<S, O>)
    requires Inv(a)
    ensures var r := Apply(a, op);
            && (r.Success? ==> Inv(r.value))
            && (op.FillOp? && r.Failure? ==> r.error != ShortPosition && r.error != NegativeResidual)
  {
    match op
    case ReserveOp(id, symbol, side, quantity, price, fees) =>
      if id !in a.reservations && quantity > 0 && price > 0.0 && fees >= 0.0 {
        if side.Sell? {
          ReserveSharesKeepsInv(a, id, symbol, quantity);
        } else if symbol in Occupied(a) || |Occupied(a)| < a.maxPositions {
          PaidPositive(quantity, price, fees);
          ReserveCashKeepsInv(a, id, symbol, quantity, Paid(quantity, price, fees));
        }
      }
    case FillOp(id, quantity, price, fees, reason) =>
      if id in a.reservations && 0 < quantity <= a.reservations[id].remaining && price > 0.0 && fees >= 0.0 {
        if a.reservations[id].side.Buy? {
          FillBuyKeepsInv(a, id, quantity, price, fees);
        } else {
          FillSellKeepsInv(a, id, quantity, price, fees, reason);
        }
      }
    case CancelOp(id) =>
      if id in a.reservations {
        CancelKeepsInv(a, id);
      }
    case MarkOp(symbol, price) =>
      MarkKeepsInv(a, symbol, price);
  }

  /** Cash stays non-negative, sells never exceed holdings, at most `maxPositions` symbols are
      occupied and the books balance to one epsilon per fill, after any calls in any order. */
  lemma {:induction false} RunKeepsInv<S(!new), O>(initialCash: real, maxPositions: int, ops: seq<Op<S, O>>)
    requires initialCash >= 0.0 && maxPositions >= 1
    ensures Inv(Run(Open(initialCash, maxPositions), ops))
    decreases |ops|
  {
    if ops == [] {
      OpenInv<S, O>(initialCash, maxPositions);
    } else {
      RunKeepsInv(initialCash, maxPositions, ops[..|ops| - 1]);
      StepKeepsInv(Run(Open(initialCash, maxPositions), ops[..|ops| - 1]), ops[|ops| - 1]);
    }
  }

  lemma OpenInv<S(!new), O>(initialCash: real, maxPositions: int)
    requires initialCash >= 0.0 && maxPositions >= 1
    ensures Inv(Open<S, O>(initialCash, maxPositions))
  {
    var a := Open<S, O>(initialCash, maxPositions);
  }
}
