/**
 * Orders as values: the order record, the order `addOrder` creates, and the
 * first-match lookup `getOrderById` performs.
 */
module Orders {
  import opened Wrappers
  import opened Text

  /** A cart line; the cart's own structure is not part of this model. */
  type CartItem(==)

  datatype OrderStatus = Pending | Processing | Shipped | Delivered

  /** An order; `date` is the creation instant in milliseconds since the epoch. */
  datatype Order = Order(
    id: string, date: nat, items: seq<CartItem>, total: real,
    status: OrderStatus, shippingAddress: string)

  /** `'ORD-' + Date.now()`. */
  function OrderId(now: nat): string {
    "ORD-" + NatToString(now)
  }

  /** The order `addOrder` creates at instant `now`: pending, identified by the clock. */
  function NewOrder(items: seq<CartItem>, total: real, shippingAddress: string, now: nat): (o: Order)
    ensures o.id == OrderId(now) && o.date == now && o.status == Pending
    ensures o.items == items && o.total == total && o.shippingAddress == shippingAddress
  {
    Order(OrderId(now), now, items, total, Pending, shippingAddress)
  }

  /** `orders.find(order => order.id === orderId)`: the first order carrying the id, if any. */
  function FindOrder(orders: seq<Order>, orderId: string): (r: Option<Order>)
    ensures r.None? <==> forall i :: 0 <= i < |orders| ==> orders[i].id != orderId
    ensures r.Some? ==> exists i :: 0 <= i < |orders| && orders[i] == r.value && FirstWithId(orders, orderId, i)
    ensures r.Some? ==> r.value.id == orderId && r.value in orders
  {
    if orders == [] then None
    else if orders[0].id == orderId then
      assert FirstWithId(orders, orderId, 0);
      Some(orders[0])
    else
      var r := FindOrder(orders[1..], orderId);
      if r.Some? then
        var i :| 0 <= i < |orders[1..]| && orders[1..][i] == r.value && FirstWithId(orders[1..], orderId, i);
        assert FirstWithId(orders, orderId, i + 1);
        r
      else
        r
  }

  /** Index `i` holds the id and no earlier index does. */
  predicate FirstWithId(orders: seq<Order>, orderId: string, i: int)
    requires 0 <= i < |orders|
  {
    orders[i].id == orderId && forall j :: 0 <= j < i ==> orders[j].id != orderId
  }

  /** Right after `addOrder`, looking up the new order's id finds the new order. */
  lemma FindNewOrder(o: Order, orders: seq<Order>)
    ensures FindOrder([o] + orders, o.id) == Some(o)
  {
  }

  /** Prepending an order does not change the lookup of any other id. */
  lemma FindOtherOrder(o: Order, orders: seq<Order>, orderId: string)
    requires o.id != orderId
    ensures FindOrder([o] + orders, orderId) == FindOrder(orders, orderId)
  {
    assert ([o] + orders)[1..] == orders;
  }

  /**
   * Orders placed at different instants get different ids; two placed within
   * the same millisecond share one, and the lookup then only reaches the later.
   */
  lemma OrderIdsDistinct(m: nat, n: nat)
    ensures OrderId(m) == OrderId(n) <==> m == n
  {
    if OrderId(m) == OrderId(n) {
      PrefixedIdInjective("ORD-", m, n);
    }
  }
}
