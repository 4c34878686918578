/** Counting entry slots: filled entries of the session plus working buys. */
module Slots {
  import opened Orders
  import opened Engine

  lemma OneMore<T>(a: set<T>, b: set<T>, x: T)
    requires x !in a && forall y :: y in b <==> y in a || y == x
    ensures |b| == |a| + 1
  {
    assert b == a + {x};
  }

  lemma BuyOrdersAdd(pending: map<OrderId, PendingOrder>, id: OrderId, p: PendingOrder)
    requires id !in pending
    ensures |BuyOrders(pending[id := p])| == |BuyOrders(pending)| + (if id.side.Buy? then 1 else 0)
  {
    if id.side.Buy? {
      OneMore(BuyOrders(pending), BuyOrders(pending[id := p]), id);
    } else {
      assert BuyOrders(pending[id := p]) == BuyOrders(pending);
    }
  }

  lemma BuyOrdersDrop(pending: map<OrderId, PendingOrder>, id: OrderId)
    requires id in pending
    ensures |BuyOrders(pending - {id})| == |BuyOrders(pending)| - (if id.side.Buy? then 1 else 0)
  {
    if id.side.Buy? {
      OneMore(BuyOrders(pending - {id}), BuyOrders(pending), id);
    } else {
      assert BuyOrders(pending - {id}) == BuyOrders(pending);
    }
  }
}
