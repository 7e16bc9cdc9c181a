/**
 * The order-lookup endpoint of the confirmation page: query validation, the choice of
 * lookup key, the in-memory store first, and the payment provider as a fallback for a
 * known order id. The provider's answer is an input.
 */
module OrderDetailsRoute {
  import opened Wrappers
  import opened ZodRules
  import opened CheckoutTypes
  import opened Orders

  const InvalidParameters: string := "Invalid request parameters"
  const NotFound: string := "Order not found"

  /** JavaScript truthiness of an optional string. */
  predicate Truthy(s: Option<string>) {
    s.Some? && s.value != []
  }

  /**
   * `OrderDetailsRequestSchema` applied to the raw `searchParams.get` values, as written: a
   * missing parameter is `null`, and `optional()` admits `undefined` only, so both
   * parameters must be present (and the key a UUID) for the request to pass.
   */
  predicate RequestSchemaAsWritten(orderId: Option<string>, key: Option<string>) {
    orderId.Some? && key.Some? && ZodUuid(key.value)
    && (Truthy(orderId) || Truthy(key))
  }

  /** The schema as evidently intended: an absent parameter is simply not given. */
  predicate RequestSchema(orderId: Option<string>, key: Option<string>) {
    (key.Some? ==> ZodUuid(key.value))
    && (Truthy(orderId) || Truthy(key))
  }

  /** `validatedData.orderId || validatedData.key!`. */
  function LookupKey(orderId: Option<string>, key: Option<string>): (k: string)
    requires Truthy(orderId) || Truthy(key)
    ensures Truthy(orderId) ==> k == orderId.value
    ensures !Truthy(orderId) ==> k == key.value
    ensures k != []
  {
    if Truthy(orderId) then orderId.value else key.value
  }

  /** A payment as `payments.get` returns it. */
  datatype FetchedPayment = FetchedPayment(
    id: string, status: Option<string>, orderId: Option<string>, receiptUrl: Option<string>,
    amount: Option<int>, currency: Option<string>, buyerEmail: Option<string>,
    firstName: Option<string>, lastName: Option<string>, addressLine1: Option<string>,
    locality: Option<string>, district: Option<string>, postalCode: Option<string>, country: Option<string>)

  /** The provider's answer to `payments.get`: a result, possibly without a payment, or an exception. */
  datatype ProviderLookup = Fetched(payment: Option<FetchedPayment>) | LookupThrew

  function OrEmpty(s: Option<string>): string {
    if Truthy(s) then s.value else ""
  }

  /** The record rebuilt from a provider payment: no items, only the total, blanks for missing fields. */
  function RecordFromPayment(p: FetchedPayment): (r: OrderRecord)
    ensures r.paymentId == p.id && r.orderId == p.orderId && r.receiptUrl == p.receiptUrl
    ensures r.details.items == []
    ensures r.details.totals.subtotal == 0.0 && r.details.totals.shipping == 0.0 && r.details.totals.tax == 0.0
    ensures r.details.totals.total == (if p.amount.Some? then p.amount.value as real / 100.0 else 0.0)
    ensures r.details.totals.currency == (if Truthy(p.currency) then p.currency.value else "USD")
  {
    var total := if p.amount.Some? then p.amount.value as real / 100.0 else 0.0;
    var currency := if Truthy(p.currency) then p.currency.value else "USD";
    OrderRecord(p.id, p.orderId, p.receiptUrl,
      OrderSummary([],
        OrderAddress(OrEmpty(p.firstName), OrEmpty(p.lastName), OrEmpty(p.buyerEmail), OrEmpty(p.addressLine1), None,
                     OrEmpty(p.locality), OrEmpty(p.district), OrEmpty(p.postalCode), OrEmpty(p.country)),
        OrderTotals(0.0, 0.0, 0.0, total, currency)))
  }

  datatype LookupResponse = OrderFound(order: OrderRecord) | LookupError(status: int, error: string)

  /** The response, and the payment id the provider was asked for (if it was asked). */
  datatype LookupOutcome = LookupOutcome(response: LookupResponse, providerQuery: Option<string>)

  predicate IsCompletedLookup(p: ProviderLookup) {
    p.Fetched? && p.payment.Some? && p.payment.value.status == Some("COMPLETED")
  }

  /** `GET` once the query has passed validation. */
  function Lookup(store: map<string, OrderRecord>, orderId: Option<string>, key: Option<string>,
                  provider: ProviderLookup): (o: LookupOutcome)
    requires Truthy(orderId) || Truthy(key)
    // a store hit is answered from the store, without asking the provider
    ensures LookupKey(orderId, key) in store ==>
      o == LookupOutcome(OrderFound(store[LookupKey(orderId, key)]), None)
    // the provider is asked, for the order id, exactly on a miss with an order id
    ensures o.providerQuery.Some? <==> LookupKey(orderId, key) !in store && Truthy(orderId)
    ensures o.providerQuery.Some? ==> o.providerQuery.value == orderId.value
    ensures LookupKey(orderId, key) !in store ==>
      o.response == (if Truthy(orderId) && IsCompletedLookup(provider)
                     then OrderFound(RecordFromPayment(provider.payment.value))
                     else LookupError(404, NotFound))
  {
    var k := LookupKey(orderId, key);
    if k in store then LookupOutcome(OrderFound(store[k]), None)
    else if Truthy(orderId) then
      if IsCompletedLookup(provider) then
        LookupOutcome(OrderFound(RecordFromPayment(provider.payment.value)), Some(orderId.value))
      else LookupOutcome(LookupError(404, NotFound), Some(orderId.value))
    else LookupOutcome(LookupError(404, NotFound), None)
  }

  /** `GET` as written. */
  function RespondAsWritten(store: map<string, OrderRecord>, orderId: Option<string>, key: Option<string>,
                            provider: ProviderLookup): (o: LookupOutcome)
    ensures !RequestSchemaAsWritten(orderId, key) ==> o == LookupOutcome(LookupError(400, InvalidParameters), None)
    ensures RequestSchemaAsWritten(orderId, key) ==> o == Lookup(store, orderId, key, provider)
  {
    if RequestSchemaAsWritten(orderId, key) then Lookup(store, orderId, key, provider)
    else LookupOutcome(LookupError(400, InvalidParameters), None)
  }

  /** `GET` with absent parameters treated as absent. */
  function Respond(store: map<string, OrderRecord>, orderId: Option<string>, key: Option<string>,
                   provider: ProviderLookup): (o: LookupOutcome)
    ensures !Truthy(orderId) && !Truthy(key) ==> o.response == LookupError(400, InvalidParameters)
    ensures key.Some? && !ZodUuid(key.value) ==> o.response == LookupError(400, InvalidParameters)
    ensures RequestSchema(orderId, key) ==> o == Lookup(store, orderId, key, provider)
    ensures o.response.LookupError? && o.response.status == 400 <==> !RequestSchema(orderId, key)
  {
    if RequestSchema(orderId, key) then Lookup(store, orderId, key, provider)
    else LookupOutcome(LookupError(400, InvalidParameters), None)
  }

  /**
   * As written, the link the confirmation page builds from a key alone is rejected with 400,
   * even when the order is in the store under that key.
   */
  lemma KeyOnlyLinkRejectedAsWritten(store: map<string, OrderRecord>, key: string, provider: ProviderLookup)
    requires ZodUuid(key) && key in store
    ensures RespondAsWritten(store, None, Some(key), provider).response == LookupError(400, InvalidParameters)
    ensures Respond(store, None, Some(key), provider).response == OrderFound(store[key])
  {
  }

  /** An order-id-only link is rejected as written too, and looked up when the fix is applied. */
  lemma OrderIdOnlyLinkRejectedAsWritten(store: map<string, OrderRecord>, orderId: string, provider: ProviderLookup)
    requires orderId != []
    ensures RespondAsWritten(store, Some(orderId), None, provider).response == LookupError(400, InvalidParameters)
    ensures Respond(store, Some(orderId), None, provider) == Lookup(store, Some(orderId), None, provider)
  {
  }

  /** When both parameters are sent, the written and the intended endpoint agree. */
  lemma BothParametersAgree(store: map<string, OrderRecord>, orderId: string, key: string, provider: ProviderLookup)
    ensures RespondAsWritten(store, Some(orderId), Some(key), provider) == Respond(store, Some(orderId), Some(key), provider)
  {
  }

  /** A record stored by the payment endpoint under its key is found by a key-only lookup. */
  lemma StoredOrderFoundByKey(store: map<string, OrderRecord>, key: string, rec: OrderRecord, provider: ProviderLookup)
    requires ZodUuid(key)
    ensures Respond(store[key := rec], None, Some(key), provider) == LookupOutcome(OrderFound(rec), None)
  {
  }

  /** `GET` against the server's order store; it only reads the store. */
  method Get(orders: OrderStore, orderId: Option<string>, key: Option<string>, provider: ProviderLookup)
    returns (o: LookupOutcome)
    ensures o == Respond(orders.store, orderId, key, provider)
  {
    if !RequestSchema(orderId, key) {
      return LookupOutcome(LookupError(400, InvalidParameters), None);
    }
    var lookupKey := LookupKey(orderId, key);
    var stored := orders.Get(lookupKey);
    if stored.Some? {
      return LookupOutcome(OrderFound(stored.value), None);
    }
    if Truthy(orderId) {
      if IsCompletedLookup(provider) {
        return LookupOutcome(OrderFound(RecordFromPayment(provider.payment.value)), Some(orderId.value));
      }
      return LookupOutcome(LookupError(404, NotFound), Some(orderId.value));
    }
    o := LookupOutcome(LookupError(404, NotFound), None);
  }
}
