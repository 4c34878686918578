/** The books of a run: every buy fill is closed by exactly one later sell of the same size, and
    the realised profit is the sum of the recorded trades. */
module Books {
  import opened Wrappers
  import opened Accounts
  import opened AccountLaws
  import opened Orders
  import opened Engine

  function NetPnl(trades: seq<Trade>): real
    decreases |trades|
  {
    if trades == [] then 0.0 else NetPnl(trades[..|trades| - 1]) + trades[|trades| - 1].netPnl
  }

  lemma NetPnlGrows(trades: seq<Trade>, t: Trade)
    ensures NetPnl(trades + [t]) == NetPnl(trades) + t.netPnl
  {
    assert (trades + [t])[..|trades|] == trades;
  }

  datatype Lot = Lot(quantity: int, price: real)

  /** A lot bought and sold again. */
  datatype Trip = Trip(symbol: Symbol, quantity: int, entryPrice: real, exitPrice: real, forced: bool)

  datatype Tape = Tape(held: map<Symbol, Lot>, trips: seq<Trip>)

  /** Replay the fills, holding at most one lot of each symbol: a buy needs an empty hand and a
      sell must sell the whole lot.  `None` when some fill does not fit. */
  function TapeOf(fills: seq<FillEvent<Symbol, OrderId>>): Option<Tape>
    decreases |fills|
  {
    if fills == [] then Some(Tape(map[], []))
    else
      var before := TapeOf(fills[..|fills| - 1]);
      var last := fills[|fills| - 1];
      if before.None? then None
      else if last.side.Buy? then
        if last.symbol in before.value.held then None
        else Some(Tape(before.value.held[last.symbol := Lot(last.quantity, last.price)], before.value.trips))
      else if last.symbol in before.value.held && before.value.held[last.symbol].quantity == last.quantity then
        var trip := Trip(last.symbol, last.quantity, before.value.held[last.symbol].price, last.price, last.Forced());
        Some(Tape(before.value.held - {last.symbol}, before.value.trips + [trip]))
      else None
  }

  lemma TapeNext(fills: seq<FillEvent<Symbol, OrderId>>, f: FillEvent<Symbol, OrderId>)
    requires TapeOf(fills).Some?
    ensures var before := TapeOf(fills).value;
            TapeOf(fills + [f]) ==
            if f.side.Buy? then
              if f.symbol in before.held then None
              else Some(Tape(before.held[f.symbol := Lot(f.quantity, f.price)], before.trips))
            else if f.symbol in before.held && before.held[f.symbol].quantity == f.quantity then
              Some(Tape(before.held - {f.symbol},
                        before.trips + [Trip(f.symbol, f.quantity, before.held[f.symbol].price, f.price, f.Forced())]))
            else None
  {
    assert (fills + [f])[..|fills|] == fills;
  }

  function TripOf(t: Trade): Trip { Trip(t.symbol, t.quantity, t.entryPrice, t.exitPrice, t.forced) }

  function TripsOf(trades: seq<Trade>): seq<Trip> {
    seq(|trades|, i requires 0 <= i < |trades| => TripOf(trades[i]))
  }

  function OpenCount(w: World): int {
    (if SPY in w.openTrades then 1 else 0) + (if QQQ in w.openTrades then 1 else 0) +
        (if IWM in w.openTrades then 1 else 0)
  }

  /** Replaying the fills gives the positions held and the trades recorded. */
  ghost predicate PairedOk(w: World) {
    && TapeOf(w.account.fills).Some?
    && (forall s :: Lookup(TapeOf(w.account.fills).value.held, s) ==
                    (if s in w.account.positions then
                       Some(Lot(w.account.positions[s].quantity, w.account.positions[s].averageCost))
                     else None))
    && TapeOf(w.account.fills).value.trips == TripsOf(w.trades)
  }

  ghost predicate BooksOk(w: World) {
    && w.account.maxPositions == MAX_POSITIONS
    && w.account.realizedPnl == NetPnl(w.trades)
    && |w.account.fills| == 2 * |w.trades| + OpenCount(w)
    && (w.intents == [] ==> w.intentKeys == {} && w.account.fills == [])
  }

  /** What the final cash of a flat account is made of. */
  lemma FlatCash(w: World)
    requires Inv(w.account) && BooksOk(w) && w.account.positions == map[] && w.openTrades == map[]
    ensures |w.account.fills| == 2 * |w.trades|
    ensures var unexplained := w.account.cash - w.account.initialCash - NetPnl(w.trades);
            -Tolerance(2 * |w.trades|) <= unexplained <= Tolerance(2 * |w.trades|)
  {}

  /** Equal up to the snapping of one residual. */
  predicate Near(x: real, y: real) { y - MONEY_EPSILON <= x <= y + MONEY_EPSILON }

  /** What the other working orders still need. */
  ghost function PromisedToOthers(a: Account<Symbol, OrderId>, id: OrderId): real
    requires id in a.reservations
  {
    ReservedCash(a.reservations - {id})
  }

  /** A whole buy in an empty hand is refused exactly when it would leave less than the other orders
      have reserved; else the fill is recorded, and the money and the positions follow. */
  lemma FullBuy(a: Account<Symbol, OrderId>, id: OrderId, quantity: int, price: real, reason: Option<ExitReason>)
    requires Inv(a) && id in a.reservations && a.reservations[id].side.Buy?
    requires a.reservations[id].remaining == quantity && price > 0.0 && a.reservations[id].symbol !in a.positions
    ensures var r := Fill(a, id, quantity, price, 0.0, reason);
            && (r.Failure? <==> a.cash - Paid(quantity, price, 0.0) < PromisedToOthers(a, id) - MONEY_EPSILON)
            && (r.Failure? ==> r.error == FillExceedsCash)
            && (r.Success? ==>
                  var b := r.value;
                  && Inv(b) && Near(b.cash, a.cash - Paid(quantity, price, 0.0))
                  && b.positions == a.positions[a.reservations[id].symbol := Position(quantity, price, price)]
                  && b.reservations == a.reservations - {id}
                  && b.realizedPnl == a.realizedPnl && b.maxPositions == a.maxPositions
                  && b.initialCash == a.initialCash
                  && b.fills == a.fills + [FillEvent(id, a.reservations[id].symbol, Buy, quantity, price, 0.0, None)])
  {
    FillBuyKeepsInv(a, id, quantity, price, 0.0);
    PaidPositive(quantity, price, 0.0);
    ReservedCashTake(a.reservations, id);
    var p := Bought(Lookup(a.positions, a.reservations[id].symbol), quantity, Paid(quantity, price, 0.0), price);
    BoughtAlone(quantity, price);
    var r := Fill(a, id, quantity, price, 0.0, reason);
    assert r.Success? ==> r.value.positions == a.positions[a.reservations[id].symbol := p.value];
  }

  lemma BoughtAlone(quantity: int, price: real)
    requires quantity > 0 && price > 0.0
    ensures Bought(None, quantity, Paid(quantity, price, 0.0), price) == Success(Position(quantity, price, price))
  {
    assert quantity as real * price / quantity as real == price;
  }

  lemma FullSell(a: Account<Symbol, OrderId>, id: OrderId, quantity: int, price: real, reason: Option<ExitReason>)
    requires Inv(a) && id in a.reservations && a.reservations[id].side.Sell?
    requires a.reservations[id].remaining == quantity && price > 0.0
    requires a.reservations[id].symbol in a.positions && a.positions[a.reservations[id].symbol].quantity == quantity
    ensures var r := Fill(a, id, quantity, price, 0.0, reason);
            && r.Success?
            && Inv(r.value) && Near(r.value.cash, a.cash + Proceeds(quantity, price, 0.0))
            && r.value.positions == a.positions - {a.reservations[id].symbol}
            && r.value.reservations == a.reservations - {id}
            && r.value.realizedPnl == a.realizedPnl +
                Gain(quantity, price, a.positions[a.reservations[id].symbol].averageCost, 0.0)
            && r.value.maxPositions == a.maxPositions && r.value.initialCash == a.initialCash
            && r.value.fills == a.fills + [FillEvent(id, a.reservations[id].symbol, Sell, quantity, price, 0.0,
                                                     Some(if reason.None? then Strategy else reason.value))]
  {
    FillSellKeepsInv(a, id, quantity, price, 0.0, reason);
    PaidPositive(quantity, price, 0.0);
    assert Proceeds(quantity, price, 0.0) == Paid(quantity, price, 0.0);
  }
}
