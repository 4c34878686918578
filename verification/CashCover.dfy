/** When the cash still covers the reservations.  `available_cash` raises exactly when it does
    not, and snapping a small balance to zero can take the cover away. */
module CashCover {
  import opened Wrappers
  import opened Accounts
  import opened AccountLaws

  ghost predicate Covered<S, O>(a: Account<S, O>) {
    AvailableCash(a).Success?
  }

  lemma ReserveKeepsCover<S(!new), O>(a: Account<S, O>, id: O, symbol: S, side: Side, quantity: int,
                                      price: real, fees: real)
    requires Covered(a)
    ensures var r := Reserve(a, id, symbol, side, quantity, price, fees);
            r.Success? ==> Covered(r.value)
  {
    var r := Reserve(a, id, symbol, side, quantity, price, fees);
    if r.Success? {
      ReservedCashPut(a.reservations, id, r.value.reservations[id]);
    }
  }

  lemma CancelKeepsCover<S(!new), O>(a: Account<S, O>, id: O)
    requires Inv(a) && Covered(a) && id in a.reservations
    ensures Covered(Cancel(a, id).value)
  {
    ReservedCashTake(a.reservations, id);
  }

  /** A buy fill keeps the cover, unless the cash it leaves is small enough to be snapped to zero
      while more than one epsilon stays reserved for other orders. */
  lemma FillBuyKeepsCoverIff<S(!new), O>(a: Account<S, O>, id: O, quantity: int, price: real, fees: real)
    requires Inv(a) && id in a.reservations && a.reservations[id].side.Buy?
    requires 0 < quantity <= a.reservations[id].remaining && price > 0.0 && fees >= 0.0
    ensures var r := FillBuy(a, id, quantity, price, fees);
            r.Success? ==>
              (Covered(r.value) <==>
               a.cash - Paid(quantity, price, fees) > MONEY_EPSILON ||
               ReservedCash(r.value.reservations) <= MONEY_EPSILON)
  {
    var res := a.reservations[id];
    ReleasedBounds(res, quantity);
    var kept := Residual(res.reservedCash - Released(res, quantity)).value;
    ShrunkFacts(a.reservations, id, quantity, kept);
  }

  lemma FillSellKeepsCoverIff<S(!new), O>(a: Account<S, O>, id: O, quantity: int, price: real, fees: real,
                                          reason: Option<ExitReason>)
    requires Inv(a) && Covered(a) && id in a.reservations && a.reservations[id].side.Sell?
    requires 0 < quantity <= a.reservations[id].remaining && Proceeds(quantity, price, fees) >= 0.0
    ensures var r := FillSell(a, id, quantity, price, fees, reason);
            r.Success? ==>
              (Covered(r.value) <==>
               a.cash + Proceeds(quantity, price, fees) > MONEY_EPSILON ||
               ReservedCash(r.value.reservations) <= MONEY_EPSILON)
  {
    ShrunkFacts(a.reservations, id, quantity, 0.0);
  }

  /** Cover that snapping cannot take away: every working buy reserves more than two epsilons. */
  ghost predicate SolidlyCovered<S, O>(a: Account<S, O>) {
    && Covered(a)
    && forall id :: id in a.reservations && a.reservations[id].side.Buy? ==>
         a.reservations[id].reservedCash > 2.0 * MONEY_EPSILON
  }

  lemma {:induction false} OnlySells<S, O>(m: map<O, Reservation<S>>)
    requires ReservationsOk(m) && forall id :: id in m ==> m[id].side.Sell?
    ensures ReservedCash(m) == 0.0
    decreases |m|
  {
    if m != map[] {
      var id :| id in m;
      ReservedCashTake(m, id);
      OnlySells(m - {id});
    }
  }

  /** At most two epsilons reserved means nothing is reserved. */
  lemma SmallReserveIsNone<S, O>(a: Account<S, O>)
    requires SolidlyCovered(a) && ReservationsOk(a.reservations) && ReservedCash(a.reservations) <= 2.0 * MONEY_EPSILON
    ensures ReservedCash(a.reservations) == 0.0
  {
    forall id | id in a.reservations ensures a.reservations[id].side.Sell? {
      ReservedCashTake(a.reservations, id);
      ReservedCashNonNegative(a.reservations - {id});
    }
    OnlySells(a.reservations);
  }

  /** A reservation may fall one epsilon short of what the order would cost. */
  lemma ReserveKeepsSolidCover<S(!new), O>(a: Account<S, O>, id: O, symbol: S, side: Side, quantity: int, price: real,
                                           fees: real)
    requires SolidlyCovered(a) && (side.Buy? ==> price > 3.0 * MONEY_EPSILON)
    ensures var r := Reserve(a, id, symbol, side, quantity, price, fees);
            r.Success? ==> SolidlyCovered(r.value)
  {
    var r := Reserve(a, id, symbol, side, quantity, price, fees);
    ReserveKeepsCover(a, id, symbol, side, quantity, price, fees);
    if r.Success? && side.Buy? {
      AtLeastOneShare(quantity, price);
    }
  }

  /** Cover to the last cent, as long as orders fill for exactly what they reserve. */
  ghost predicate Snug<S, O>(a: Account<S, O>) {
    ReservedCash(a.reservations) <= a.cash || ReservedCash(a.reservations) <= MONEY_EPSILON
  }

  lemma SnugIsCovered<S(!new), O>(a: Account<S, O>)
    requires Inv(a) && Snug(a)
    ensures Covered(a)
  {}

  lemma ReserveKeepsSnug<S(!new), O>(a: Account<S, O>, id: O, symbol: S, side: Side, quantity: int, price: real)
    requires Snug(a)
    requires side.Buy? ==> Covered(a) && Paid(quantity, price, 0.0) <= AvailableCash(a).value
    ensures var r := Reserve(a, id, symbol, side, quantity, price, 0.0);
            r.Success? ==> Snug(r.value)
  {
    var r := Reserve(a, id, symbol, side, quantity, price, 0.0);
    if r.Success? {
      ReservedCashPut(a.reservations, id, r.value.reservations[id]);
      PaidPositive(quantity, price, 0.0);
    }
  }

  lemma CancelKeepsSnug<S(!new), O>(a: Account<S, O>, id: O)
    requires Inv(a) && Snug(a) && id in a.reservations
    ensures Snug(Cancel(a, id).value)
  {
    ReservedCashTake(a.reservations, id);
  }

  /** A sell, or a buy that costs what it reserved, filled in full. */
  lemma FillKeepsSnug<S(!new), O>(a: Account<S, O>, id: O, price: real, reason: Option<ExitReason>)
    requires Inv(a) && Snug(a) && id in a.reservations && price > 0.0
    requires a.reservations[id].side.Buy? ==>
             a.reservations[id].reservedCash == Paid(a.reservations[id].remaining, price, 0.0)
    ensures var r := Fill(a, id, a.reservations[id].remaining, price, 0.0, reason);
            r.Success? ==> Snug(r.value)
  {
    var quantity := a.reservations[id].remaining;
    ReservedCashTake(a.reservations, id);
    CancelKeepsInv(a, id);
    ReservedCashNonNegative(a.reservations - {id});
    PaidPositive(quantity, price, 0.0);
    var r := Fill(a, id, quantity, price, 0.0, reason);
    if r.Success? {
      assert r.value.reservations == a.reservations - {id};
      assert Proceeds(quantity, price, 0.0) == Paid(quantity, price, 0.0);
    }
  }

  lemma AtLeastOneShare(quantity: int, price: real)
    requires quantity > 0 && price > 0.0
    ensures Paid(quantity, price, 0.0) >= price
  {}

  lemma CancelKeepsSolidCover<S(!new), O>(a: Account<S, O>, id: O)
    requires Inv(a) && SolidlyCovered(a) && id in a.reservations
    ensures SolidlyCovered(Cancel(a, id).value)
  {
    CancelKeepsCover(a, id);
  }

  /** Filling a whole order at no fee keeps solid cover. */
  lemma FillKeepsSolidCover<S(!new), O>(a: Account<S, O>, id: O, price: real, reason: Option<ExitReason>)
    requires Inv(a) && SolidlyCovered(a) && id in a.reservations && price > 0.0
    ensures var r := Fill(a, id, a.reservations[id].remaining, price, 0.0, reason);
            r.Success? ==> SolidlyCovered(r.value)
  {
    var quantity := a.reservations[id].remaining;
    var r := Fill(a, id, quantity, price, 0.0, reason);
    if r.Success? {
      ReservedCashTake(a.reservations, id);
      var rest := Cancel(a, id).value;
      CancelKeepsInv(a, id);
      CancelKeepsSolidCover(a, id);
      assert Residual(0.0) == Success(0.0);
      assert r.value.reservations == rest.reservations;
      PaidPositive(quantity, price, 0.0);
      if ReservedCash(rest.reservations) <= 2.0 * MONEY_EPSILON {
        SmallReserveIsNone(rest);
      }
      if a.reservations[id].side.Buy? {
        FillBuyKeepsCoverIff(a, id, quantity, price, 0.0);
      } else {
        assert Proceeds(quantity, price, 0.0) == Paid(quantity, price, 0.0);
        FillSellKeepsCoverIff(a, id, quantity, price, 0.0, reason);
      }
    }
  }

  /** A call that cannot take solid cover away: no buy at three epsilons a share or less, and orders
      that fill whole and free of fees. */
  ghost predicate Heavy<S, O>(a: Account<S, O>, op: Op<S, O>) {
    match op
    case ReserveOp(_, _, side, _, price, _) => side.Buy? ==> price > 3.0 * MONEY_EPSILON
    case FillOp(id, quantity, _, fees, _) =>
      fees == 0.0 && (id in a.reservations ==> quantity == a.reservations[id].remaining)
    case _ => true
  }

  lemma HeavyStepKeepsSolidCover<S(!new), O>(a: Account<S, O>, op: Op<S, O>)
    requires Inv(a) && SolidlyCovered(a) && Heavy(a, op)
    ensures var r := Apply(a, op); r.Success? ==> SolidlyCovered(r.value)
  {
    match op
    case ReserveOp(id, symbol, side, quantity, price, fees) =>
      ReserveKeepsSolidCover(a, id, symbol, side, quantity, price, fees);
    case FillOp(id, quantity, price, fees, reason) =>
      if id in a.reservations && price > 0.0 {
        FillKeepsSolidCover(a, id, price, reason);
      }
    case CancelOp(id) =>
      if id in a.reservations {
        CancelKeepsSolidCover(a, id);
      }
    case MarkOp(_, _) =>
  }

  /** After any such calls, whether they raise or not, `available_cash` does not raise. */
  lemma {:induction false} HeavyRunKeepsCover<S(!new), O>(initialCash: real, maxPositions: int, ops: seq<Op<S, O>>)
    requires initialCash >= 0.0 && maxPositions >= 1
    requires forall i :: 0 <= i < |ops| ==> Heavy(Run(Open(initialCash, maxPositions), ops[..i]), ops[i])
    ensures SolidlyCovered(Run(Open<S, O>(initialCash, maxPositions), ops))
    decreases |ops|
  {
    var start := Open<S, O>(initialCash, maxPositions);
    if ops == [] {
      OpenInv<S, O>(initialCash, maxPositions);
    } else {
      var n := |ops| - 1;
      forall i | 0 <= i < n ensures Heavy(Run(start, ops[..n][..i]), ops[..n][i]) {
        assert ops[..n][..i] == ops[..i];
      }
      HeavyRunKeepsCover(initialCash, maxPositions, ops[..n]);
      RunKeepsInv(initialCash, maxPositions, ops[..n]);
      HeavyStepKeepsSolidCover(Run(start, ops[..n]), ops[n]);
    }
  }
}
