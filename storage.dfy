/**
 * The browser's `localStorage`, shared by the three providers: one map from
 * key to stored value. Values are kept as the records they serialise, so
 * `JSON.stringify` and `JSON.parse` are the identity here.
 */
module Storage {
  import opened Users
  import opened Orders
  import opened Reviews

  /** The shapes the storefront stores: the user, the order list, the review list. */
  datatype Stored =
    | UserEntry(user: User)
    | OrderList(orders: seq<Order>)
    | ReviewList(reviews: seq<Review>)

  class LocalStorage {
    var entries: map<string, Stored>

    constructor (entries: map<string, Stored>)
      ensures this.entries == entries
    {
      this.entries := entries;
    }

    /** `localStorage.setItem(key, value)`: that key now holds the value; no other key changes. */
    method SetItem(key: string, value: Stored)
      modifies this
      ensures entries == old(entries)[key := value]
    {
      entries := entries[key := value];
    }

    /** `localStorage.removeItem(key)`: the key is gone; no other key changes. */
    method RemoveItem(key: string)
      modifies this
      ensures entries == old(entries) - {key}
    {
      entries := entries - {key};
    }
  }
}
