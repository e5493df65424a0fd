/**
 * `OrderProvider`: the order history held in memory, loaded from and written
 * back to `localStorage` under the key `orders`.
 */
module OrderContext {
  import opened Wrappers
  import opened Orders
  import opened Storage

  const OrdersKey := "orders"

  /** The lazy initial state: the stored list, or `[]` when nothing (usable) is stored. */
  function LoadOrders(entries: map<string, Stored>): (r: seq<Order>)
    ensures OrdersKey in entries && entries[OrdersKey].OrderList? ==> entries[OrdersKey] == OrderList(r)
    ensures !(OrdersKey in entries && entries[OrdersKey].OrderList?) ==> r == []
  {
    if OrdersKey in entries && entries[OrdersKey].OrderList? then entries[OrdersKey].orders else []
  }

  /** What was persisted is what the next page load starts from. */
  lemma ReloadRestoresOrders(entries: map<string, Stored>, orders: seq<Order>)
    ensures LoadOrders(entries[OrdersKey := OrderList(orders)]) == orders
  {
  }

  class OrderProvider {
    var orders: seq<Order>
    const storage: LocalStorage

    /** The persisted copy agrees with the list in memory. */
    ghost predicate Persisted()
      reads this, storage
    {
      LoadOrders(storage.entries) == orders
    }

    /** Mounting: load the stored list, then the persist effect writes it back. */
    constructor (store: LocalStorage)
      modifies store
      ensures storage == store
      ensures orders == LoadOrders(old(store.entries))
      ensures store.entries == old(store.entries)[OrdersKey := OrderList(orders)]
      ensures Persisted()
    {
      storage := store;
      orders := LoadOrders(store.entries);
      new;
      storage.SetItem(OrdersKey, OrderList(orders));
    }

    /**
     * `addOrder` followed by the persist effect: a pending order stamped with
     * the instant `now` goes in front of the history, and the history is stored.
     */
    method AddOrder(items: seq<CartItem>, total: real, shippingAddress: string, now: nat)
      modifies this, storage
      ensures orders == [NewOrder(items, total, shippingAddress, now)] + old(orders)
      ensures storage.entries == old(storage.entries)[OrdersKey := OrderList(orders)]
      ensures Persisted()
      ensures GetOrderById(OrderId(now)) == Some(NewOrder(items, total, shippingAddress, now))
      ensures forall id :: id != OrderId(now) ==> GetOrderById(id) == FindOrder(old(orders), id)
    {
      var order := NewOrder(items, total, shippingAddress, now);
      FindNewOrder(order, orders);
      forall id | id != OrderId(now)
        ensures FindOrder([order] + orders, id) == FindOrder(orders, id)
      {
        FindOtherOrder(order, orders, id);
      }
      orders := [order] + orders;
      storage.SetItem(OrdersKey, OrderList(orders));
    }

    /** `getOrderById`: none when no order has the id, otherwise the first order that has it. */
    function GetOrderById(orderId: string): (r: Option<Order>)
      reads this
      ensures r.None? <==> forall i :: 0 <= i < |orders| ==> orders[i].id != orderId
      ensures r.Some? ==> exists i :: 0 <= i < |orders| && orders[i] == r.value && FirstWithId(orders, orderId, i)
    {
      FindOrder(orders, orderId)
    }
  }
}
