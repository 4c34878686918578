/** The mutable portfolio.  Every method does to the fields what the operation of the same name
    in `Accounts` does to their values, and a call that raises leaves every field as it was. */
module Portfolios {
  import opened Wrappers
  import opened Sums
  import opened Accounts

  /** `after` and `r` are what `step` says of a call made in `before`. */
  ghost predicate Did<S, O>(before: Account<S, O>, step: Result<Account<S, O>, AccountError>,
                            r: Result<(), AccountError>, after: Account<S, O>)
  {
    match step
    case Success(a) => r == Success(()) && after == a
    case Failure(e) => r == Failure(e) && after == before
  }

  class Portfolio<S(!new, ==), O(!new, ==)> {
    const initialCash: real
    const maxPositions: int
    var cash: real
    var realizedPnl: real
    var positions: map<S, Position>
    var reservations: map<O, Reservation<S>>
    var fillEvents: seq<FillEvent<S, O>>

    ghost function View(): Account<S, O>
      reads this
    {
      Account(initialCash, maxPositions, cash, realizedPnl, positions, reservations, fillEvents)
    }

    constructor (initialCash: real, maxPositions: int)
      requires initialCash >= 0.0 && maxPositions >= 1
      ensures View() == Open(initialCash, maxPositions)
    {
      this.initialCash := initialCash;
      this.maxPositions := maxPositions;
      cash := initialCash;
      realizedPnl := 0.0;
      positions := map[];
      reservations := map[];
      fillEvents := [];
    }

    method TotalReserved() returns (total: real)
      ensures total == ReservedCash(reservations)
    {
      total := 0.0;
      var rest := reservations;
      while rest != map[]
        invariant total + ReservedCash(rest) == ReservedCash(reservations)
        decreases |rest|
      {
        var id :| id in rest;
        ReservedCashTake(rest, id);
        total := total + rest[id].reservedCash;
        rest := rest - {id};
      }
    }

    method Available() returns (r: Result<real, AccountError>)
      ensures r == AvailableCash(View())
    {
      var reserved := TotalReserved();
      r := Residual(cash - reserved);
    }

    method Equity() returns (equity: real)
      ensures equity == Accounts.Equity(View())
    {
      equity := cash;
      var rest := positions;
      while rest != map[]
        invariant equity + Sum(rest, (p: Position) => p.MarketValue()) == Accounts.Equity(View())
        decreases |rest|
      {
        var s :| s in rest;
        SumTake(rest, (p: Position) => p.MarketValue(), s);
        equity := equity + rest[s].MarketValue();
        rest := rest - {s};
      }
    }

    method OccupiedSymbols() returns (occupied: set<S>)
      ensures occupied == Occupied(View())
    {
      occupied := positions.Keys;
      var rest := reservations;
      while rest != map[]
        invariant forall s :: s in occupied || s in BuySymbols(rest) <==> s in Occupied(View())
        decreases |rest|
      {
        var id :| id in rest;
        BuySymbolsTake(rest, id);
        if rest[id].side.Buy? {
          occupied := occupied + {rest[id].symbol};
        }
        rest := rest - {id};
      }
    }

    method AlreadySelling(symbol: S) returns (total: real)
      ensures total == SellReserved(reservations, symbol)
    {
      total := 0.0;
      var rest := reservations;
      while rest != map[]
        invariant total + SellReserved(rest, symbol) == SellReserved(reservations, symbol)
        decreases |rest|
      {
        var id :| id in rest;
        SellReservedTake(rest, id, symbol);
        if rest[id].side.Sell? && rest[id].symbol == symbol {
          total := total + rest[id].remaining as real;
        }
        rest := rest - {id};
      }
    }

    method ReserveOrder(id: O, symbol: S, side: Side, quantity: int, estimatedPrice: real, estimatedFees: real)
      returns (r: Result<(), AccountError>)
      modifies this
      ensures Did(old(View()), Reserve(old(View()), id, symbol, side, quantity, estimatedPrice, estimatedFees), r,
                  View())
    {
      if id in reservations { return Failure(DuplicateReservation); }
      if quantity <= 0 { return Failure(NonPositiveQuantity); }
      if estimatedPrice <= 0.0 { return Failure(NonPositivePrice); }
      if estimatedFees < 0.0 { return Failure(NegativeFees); }
      var reserved := 0.0;
      if side.Buy? {
        var occupied := OccupiedSymbols();
        if symbol !in occupied && |occupied| >= maxPositions { return Failure(TooManyPositions); }
        reserved := Paid(quantity, estimatedPrice, estimatedFees);
        var available := Available();
        if available.Failure? { return Failure(available.error); }
        if reserved > available.value + MONEY_EPSILON { return Failure(ExceedsAvailableCash); }
        reserved := Min(reserved, available.value);
      } else {
        var held := if symbol in positions then positions[symbol].quantity else 0;
        var already := AlreadySelling(symbol);
        if quantity as real > held as real - already { return Failure(ExceedsHeldQuantity); }
      }
      reservations := reservations[id := Reservation(symbol, side, quantity, reserved)];
      return Success(());
    }

    method ApplyFill(id: O, quantity: int, price: real, fees: real, reason: Option<ExitReason>)
      returns (r: Result<(), AccountError>)
      modifies this
      ensures Did(old(View()), Fill(old(View()), id, quantity, price, fees, reason), r, View())
    {
      if quantity <= 0 { return Failure(NonPositiveQuantity); }
      if price <= 0.0 { return Failure(NonPositivePrice); }
      if fees < 0.0 { return Failure(NegativeFees); }
      if id !in reservations { return Failure(ReservationNotFound); }
      var reservation := reservations[id];
      if quantity > reservation.remaining { return Failure(ExceedsReservation); }
      if reservation.side.Buy? {
        r := ApplyBuy(id, quantity, price, fees);
      } else {
        r := ApplySell(id, quantity, price, fees, reason);
      }
    }

    method ApplyBuy(id: O, quantity: int, price: real, fees: real) returns (r: Result<(), AccountError>)
      requires id in reservations && 0 < quantity <= reservations[id].remaining
      modifies this
      ensures Did(old(View()), FillBuy(old(View()), id, quantity, price, fees), r, View())
    {
      var reservation := reservations[id];
      var left := reservation.remaining - quantity;
      var kept := Residual(reservation.reservedCash - Released(reservation, quantity));
      if kept.Failure? { return Failure(kept.error); }
      var reserved := TotalReserved();
      var nextCash := cash - Paid(quantity, price, fees);
      if nextCash < reserved - reservation.reservedCash + kept.value - MONEY_EPSILON {
        return Failure(FillExceedsCash);
      }
      var normalized := Residual(nextCash);
      if normalized.Failure? { return Failure(normalized.error); }
      var position := Bought(Lookup(positions, reservation.symbol), quantity, Paid(quantity, price, fees), price);
      if position.Failure? { return Failure(position.error); }
      reservations := Shrunk(reservations, id, left, kept.value);
      cash := normalized.value;
      positions := positions[reservation.symbol := position.value];
      fillEvents := fillEvents + [FillEvent(id, reservation.symbol, Buy, quantity, price, fees, None)];
      return Success(());
    }

    method ApplySell(id: O, quantity: int, price: real, fees: real, reason: Option<ExitReason>)
      returns (r: Result<(), AccountError>)
      requires id in reservations && 0 < quantity <= reservations[id].remaining
      modifies this
      ensures Did(old(View()), FillSell(old(View()), id, quantity, price, fees, reason), r, View())
    {
      var reservation := reservations[id];
      var symbol := reservation.symbol;
      if symbol !in positions || quantity > positions[symbol].quantity { return Failure(ShortPosition); }
      var nextCash := cash + Proceeds(quantity, price, fees);
      if nextCash < -MONEY_EPSILON { return Failure(NegativeCash); }
      var booked := Gain(quantity, price, positions[symbol].averageCost, fees);
      reservations := Shrunk(reservations, id, reservation.remaining - quantity, 0.0);
      cash := Residual(nextCash).value;
      realizedPnl := realizedPnl + booked;
      positions := Sold(positions, symbol, quantity, price);
      var exit := if reason.None? then Strategy else reason.value;
      fillEvents := fillEvents + [FillEvent(id, symbol, Sell, quantity, price, fees, Some(exit))];
      return Success(());
    }

    method CancelOrder(id: O) returns (r: Result<(), AccountError>)
      modifies this
      ensures Did(old(View()), Cancel(old(View()), id), r, View())
    {
      if id !in reservations { return Failure(ReservationNotFound); }
      reservations := reservations - {id};
      return Success(());
    }

    method MarkToMarket(symbol: S, price: real) returns (r: Result<(), AccountError>)
      modifies this
      ensures Did(old(View()), Mark(old(View()), symbol, price), r, View())
    {
      if price <= 0.0 { return Failure(NonPositivePrice); }
      if symbol !in positions { return Failure(PositionNotFound); }
      positions := positions[symbol := positions[symbol].(marketPrice := price)];
      return Success(());
    }
  }
}
