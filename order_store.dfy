/**
 * The in-memory order store read by the confirmation page: a map from lookup key to
 * order record. Each `set` schedules the key's deletion 24 hours later; that timer is
 * modelled as a pending expiry the environment fires with `Expire`.
 */
module Orders {
  import opened Wrappers
  import opened CheckoutTypes

  /** `24 * 60 * 60 * 1000`: how long a stored order lives. */
  const ExpiryMs: int := 86400000

  /** One purchased line as stored with the order. */
  datatype OrderLine = OrderLine(id: string, title: string, variant: string, quantity: real, priceValue: real)

  /** The stored address (no phone number). */
  datatype OrderAddress = OrderAddress(
    firstName: string, lastName: string, email: string, address1: string, address2: Option<string>,
    city: string, state: string, postalCode: string, country: string)

  /** `OrderDetails.orderDetails`. */
  datatype OrderSummary = OrderSummary(items: seq<OrderLine>, address: OrderAddress, totals: OrderTotals)

  /** `OrderDetails`. */
  datatype OrderRecord = OrderRecord(
    paymentId: string, orderId: Option<string>, receiptUrl: Option<string>, details: OrderSummary)

  /** `OrderStore`. */
  class OrderStore {
    var store: map<string, OrderRecord>
    /** Keys whose 24-hour deletion timer is still pending, once per `set`. */
    var pendingExpiries: multiset<string>

    constructor()
      ensures store == map[] && pendingExpiries == multiset{}
    {
      store := map[];
      pendingExpiries := multiset{};
    }

    /** `set`: stores or overwrites the record and schedules one more deletion of the key. */
    method Set(key: string, order: OrderRecord)
      modifies this
      ensures store == old(store)[key := order]
      ensures pendingExpiries == old(pendingExpiries) + multiset{key}
      ensures Get(key) == Some(order)
      ensures forall k :: k != key ==> Get(k) == old(Get(k))
      ensures Size() == if key in old(store) then old(Size()) else old(Size()) + 1
    {
      store := store[key := order];
      pendingExpiries := pendingExpiries + multiset{key};
    }

    /** `get`: the record under the key, `undefined` when there is none. */
    function Get(key: string): (r: Option<OrderRecord>)
      reads this
      ensures r.Some? <==> key in store
      ensures r.Some? ==> r.value == store[key]
    {
      if key in store then Some(store[key]) else None
    }

    /** `delete`. */
    method Delete(key: string)
      modifies this
      ensures store == old(store) - {key} && pendingExpiries == old(pendingExpiries)
      ensures Get(key) == None
      ensures forall k :: k != key ==> Get(k) == old(Get(k))
      ensures Size() == if key in old(store) then old(Size()) - 1 else old(Size())
    {
      store := store - {key};
    }

    /** `has`. */
    function Has(key: string): (b: bool)
      reads this
      ensures b <==> Get(key).Some?
    {
      key in store
    }

    /** `size`. */
    function Size(): (n: nat)
      reads this
      ensures n == |store.Keys|
    {
      |store|
    }

    /** One scheduled deletion of `key` fires: the key is gone, whatever was stored under it since. */
    method Expire(key: string)
      requires key in pendingExpiries
      modifies this
      ensures store == old(store) - {key}
      ensures pendingExpiries == old(pendingExpiries) - multiset{key}
      ensures !Has(key)
      ensures forall k :: k != key ==> Get(k) == old(Get(k))
    {
      store := store - {key};
      pendingExpiries := pendingExpiries - multiset{key};
    }
  }

  /**
   * Writing a key twice leaves two timers: the first one to fire removes the second
   * record, 24 hours after the first write rather than the second.
   */
  method RewriteExpiresWithFirstTimer(key: string, first: OrderRecord, second: OrderRecord) returns (found: Option<OrderRecord>)
    ensures found == None
  {
    var s := new OrderStore();
    s.Set(key, first);
    s.Set(key, second);
    assert s.Get(key) == Some(second);
    s.Expire(key);
    found := s.Get(key);
  }

  /** Deleting a key and then letting its timer fire is harmless. */
  method DeleteThenExpire(key: string, order: OrderRecord, other: string, otherOrder: OrderRecord)
    returns (found: Option<OrderRecord>, kept: Option<OrderRecord>)
    requires other != key
    ensures found == None && kept == Some(otherOrder)
  {
    var s := new OrderStore();
    s.Set(other, otherOrder);
    s.Set(key, order);
    s.Delete(key);
    s.Expire(key);
    found := s.Get(key);
    kept := s.Get(other);
  }
}
