/**
 * The payment endpoint: a per-client rate-limit gate, then schema validation of the body,
 * then the minimum amount, then the charge with the payment provider, and on a completed
 * payment the order record stored under the idempotency key and the provider's order id.
 * The provider's answer and the clock are inputs; the limiter and the order store are the
 * server's two shared objects.
 */
module PaymentRoute {
  import opened Wrappers
  import opened JsStrings
  import opened ZodRules
  import opened CheckoutTypes
  import opened CartTypes
  import opened RateLimiting
  import opened Orders
  import PaymentForm

  const TooManyAttempts: string := "Too many payment attempts." + " Please try again later."
  const InvalidPaymentData: string := "Invalid payment data"
  const BelowMinimum: string := "Minimum payment amount is $1.00"
  const NotCompleted: string := "Payment could not be completed." + " Please try again."
  const Unexpected: string := "An unexpected error occurred. Please try again."
  /** The smallest charge, in cents. */
  const MinimumAmount: int := 100
  /** The schema's `max(1000000)`, in cents. */
  const MaximumAmount: int := 1000000

  /** `getClientIP`: the first `x-forwarded-for` entry, else `x-real-ip`, else "unknown". */
  function ClientIp(forwardedFor: Option<string>, realIp: Option<string>): (ip: string)
    ensures ip != []
    ensures forwardedFor.Some? && Split(forwardedFor.value, ',')[0] != [] ==> ip == Split(forwardedFor.value, ',')[0]
    ensures forwardedFor.Some? && Split(forwardedFor.value, ',')[0] != [] ==> ',' !in ip
    ensures (forwardedFor.None? || Split(forwardedFor.value, ',')[0] == []) ==>
      ip == (if realIp.Some? && realIp.value != [] then realIp.value else "unknown")
  {
    var first := if forwardedFor.Some? then Split(forwardedFor.value, ',')[0] else [];
    if first != [] then first
    else if realIp.Some? && realIp.value != [] then realIp.value
    else "unknown"
  }

  /** The first entry is taken as sent, without trimming: "a, b" yields "a" whatever follows. */
  lemma ClientIpTakesFirstHop(first: string, rest: string, realIp: Option<string>)
    requires first != [] && ',' !in first
    ensures ClientIp(Some(first + "," + rest), realIp) == first
    ensures ClientIp(Some(first), realIp) == first
  {
    SplitAtFirst(first, rest, ',');
    SplitNoSeparator(first, ',');
  }

  /** An empty first entry falls through to `x-real-ip`, then to "unknown". */
  lemma EmptyFirstHopFallsThrough(rest: string)
    ensures ClientIp(Some("," + rest), Some("10.0.0.2")) == "10.0.0.2"
    ensures ClientIp(Some("," + rest), Some("")) == "unknown"
    ensures ClientIp(None, None) == "unknown"
  {
    SplitAtFirst([], rest, ',');
    assert [] + [','] + rest == "," + rest;
  }

  /** `Math.ceil(ms / 1000)` on a whole number of milliseconds. */
  function CeilDiv(a: int, d: int): (q: int)
    requires d > 0
    ensures (q - 1) * d < a <= q * d
  {
    -((-a) / d)
  }

  /** `orderDetails` as the client may send it. */
  datatype OrderDetailsInput = OrderDetailsInput(items: Option<seq<OrderLine>>, totals: Option<OrderTotals>)

  /** The parsed JSON body of a payment request. */
  datatype PaymentBody = PaymentBody(
    sourceId: Option<string>,
    amount: JsNumber,
    currency: string,
    shippingAddress: ShippingAddress,
    idempotencyKey: string,
    orderDetails: Option<OrderDetailsInput>)

  predicate IsWhole(x: real) { x == x.Floor as real }

  /** The address part of `PaymentRequestSchema` (phone and second line are not checked). */
  predicate PaymentAddressSchema(a: ShippingAddress) {
    LengthIn(a.firstName, 1, 50)
    && LengthIn(a.lastName, 1, 50)
    && ZodEmail(a.email)
    && LengthIn(a.address1, 1, 100)
    && LengthIn(a.city, 1, 50)
    && LengthIn(a.state, 1, 50)
    && LengthIn(a.postalCode, 3, 20)
    && a.country in ["MX", "US", "CA"]
  }

  /** `PaymentRequestSchema`; every shape of `orderDetails` this datatype can hold passes. */
  predicate PaymentRequestSchema(b: PaymentBody) {
    b.sourceId.Some? && |b.sourceId.value| >= 1
    && b.amount.Finite? && b.amount.value > 0.0 && IsWhole(b.amount.value)
    && b.amount.value <= MaximumAmount as real
    && b.currency in ["USD", "MXN", "CAD"]
    && PaymentAddressSchema(b.shippingAddress)
    && ZodUuid(b.idempotencyKey)
  }

  /** A body the schema accepts carries a whole number of cents in 1..1000000. */
  lemma SchemaAmountBounds(b: PaymentBody)
    requires PaymentRequestSchema(b)
    ensures 1 <= Cents(b) <= MaximumAmount && Cents(b) as real == b.amount.value
  {
  }

  /** The amount as the whole number of cents the schema guarantees. */
  function Cents(b: PaymentBody): int
    requires b.amount.Finite?
  {
    b.amount.value.Floor
  }

  /** The address as the schema returns it: only its declared fields survive parsing. */
  function StoredAddress(a: ShippingAddress): (s: OrderAddress)
    ensures s.address2 == None && s.email == a.email && s.country == a.country && s.postalCode == a.postalCode
  {
    OrderAddress(a.firstName, a.lastName, a.email, a.address1, None, a.city, a.state, a.postalCode, a.country)
  }

  /** What is sent to the provider's `payments.create`. */
  datatype Charge = Charge(
    sourceId: string, idempotencyKey: string, amount: int, currency: string,
    buyerEmail: string, shippingAddress: OrderAddress)

  /** A payment as the provider describes it. */
  datatype ProviderPayment = ProviderPayment(
    id: string, status: Option<string>, orderId: Option<string>, receiptUrl: Option<string>)

  /** The provider's answer: a result (possibly without a payment), an API error, or another exception. */
  datatype ProviderReply =
    | Created(payment: Option<ProviderPayment>)
    | ApiError(firstDetail: Option<string>)
    | Threw(message: string)

  predicate IsCompleted(p: ProviderReply) {
    p.Created? && p.payment.Some? && p.payment.value.status == Some("COMPLETED")
  }

  /**
   * The JSON body of a response together with the rate-limit headers sent with it: on a
   * 429, `retryAfter` is both the body field and the `Retry-After` header and `resetAt` is
   * `X-RateLimit-Reset` (`X-RateLimit-Remaining` is then always 0); on a 200, `remaining`
   * is `X-RateLimit-Remaining`.
   */
  datatype ResponseBody =
    | RateLimited(error: string, retryAfter: int, resetAt: int)
    | Paid(paymentId: string, orderId: Option<string>, receiptUrl: Option<string>,
           idempotencyKey: string, remaining: int)
    | Refused(error: string)

  datatype Response = Response(status: int, body: ResponseBody)

  /** A route outcome: the response, the charge made (if any), and the record stored (if any). */
  datatype Decision = Decision(response: Response, charge: Option<Charge>, stored: Option<OrderRecord>)

  function ChargeFor(b: PaymentBody): Charge
    requires PaymentRequestSchema(b)
  {
    Charge(b.sourceId.value, b.idempotencyKey, Cents(b), b.currency, b.shippingAddress.email,
           StoredAddress(b.shippingAddress))
  }

  /** The record kept for the confirmation page; missing totals fall back to the charged amount. */
  function RecordFor(b: PaymentBody, p: ProviderPayment): (r: OrderRecord)
    requires PaymentRequestSchema(b)
    ensures r.paymentId == p.id && r.orderId == p.orderId && r.receiptUrl == p.receiptUrl
    ensures r.details.address == StoredAddress(b.shippingAddress)
    ensures b.orderDetails.Some? && b.orderDetails.value.totals.Some? ==> r.details.totals == b.orderDetails.value.totals.value
    ensures b.orderDetails.None? || b.orderDetails.value.totals.None? ==>
      r.details.totals == OrderTotals(0.0, 0.0, 0.0, b.amount.value / 100.0, b.currency)
    ensures b.orderDetails.None? || b.orderDetails.value.items.None? ==> r.details.items == []
  {
    var items := if b.orderDetails.Some? && b.orderDetails.value.items.Some? then b.orderDetails.value.items.value else [];
    var totals := if b.orderDetails.Some? && b.orderDetails.value.totals.Some? then b.orderDetails.value.totals.value
                  else OrderTotals(0.0, 0.0, 0.0, b.amount.value / 100.0, b.currency);
    OrderRecord(p.id, p.orderId, p.receiptUrl, OrderSummary(items, StoredAddress(b.shippingAddress), totals))
  }

  /** The provider's answer to a charge, as a response and the record to store. */
  function AfterCharge(b: PaymentBody, check: CheckResult, provider: ProviderReply): (d: Decision)
    requires PaymentRequestSchema(b)
    ensures d.charge == Some(ChargeFor(b))
    ensures d.stored.Some? <==> IsCompleted(provider)
    ensures IsCompleted(provider) ==>
      var p := provider.payment.value;
      d.stored == Some(RecordFor(b, p))
      && d.response == Response(200, Paid(p.id, p.orderId, p.receiptUrl, b.idempotencyKey, check.remaining))
    ensures provider.Created? && !IsCompleted(provider) ==> d.response == Response(400, Refused(NotCompleted))
    ensures provider.ApiError? ==>
      d.response == Response(500, Refused(PaymentForm.OrElse(provider.firstDetail, "Payment processing failed")))
    ensures provider.Threw? ==> d.response == Response(500, Refused(Unexpected))
  {
    var charge := Some(ChargeFor(b));
    match provider
    case Created(payment) =>
      if IsCompleted(provider) then
        var p := payment.value;
        Decision(Response(200, Paid(p.id, p.orderId, p.receiptUrl, b.idempotencyKey, check.remaining)),
                 charge, Some(RecordFor(b, p)))
      else Decision(Response(400, Refused(NotCompleted)), charge, None)
    case ApiError(detail) =>
      Decision(Response(500, Refused(PaymentForm.OrElse(detail, "Payment processing failed"))), charge, None)
    case Threw(_) => Decision(Response(500, Refused(Unexpected)), charge, None)
  }

  /**
   * `POST` after the limiter has answered `check` at time `now`: `body` is the parsed JSON,
   * absent when the body is not JSON.
   */
  function Decide(check: CheckResult, now: int, body: Option<PaymentBody>, provider: ProviderReply): (d: Decision)
    // a denied client gets 429 and nothing else happens
    ensures !check.allowed ==>
      d == Decision(Response(429, RateLimited(TooManyAttempts, CeilDiv(check.resetAt - now, 1000), check.resetAt)), None, None)
    // the provider is reached only by an allowed, well-formed request of at least one dollar
    ensures d.charge.Some? <==>
      check.allowed && body.Some? && PaymentRequestSchema(body.value) && Cents(body.value) >= MinimumAmount
    ensures check.allowed && body.None? ==> d == Decision(Response(500, Refused(Unexpected)), None, None)
    ensures check.allowed && body.Some? && !PaymentRequestSchema(body.value) ==>
      d == Decision(Response(400, Refused(InvalidPaymentData)), None, None)
    ensures check.allowed && body.Some? && PaymentRequestSchema(body.value) && Cents(body.value) < MinimumAmount ==>
      d == Decision(Response(400, Refused(BelowMinimum)), None, None)
    ensures d.charge.Some? ==> d == AfterCharge(body.value, check, provider)
    // something is stored exactly when the response is a 200
    ensures d.stored.Some? <==> d.response.status == 200
    ensures d.stored.Some? ==> d.charge.Some? && IsCompleted(provider)
  {
    if !check.allowed then
      Decision(Response(429, RateLimited(TooManyAttempts, CeilDiv(check.resetAt - now, 1000), check.resetAt)), None, None)
    else if body.None? then Decision(Response(500, Refused(Unexpected)), None, None)
    else if !PaymentRequestSchema(body.value) then Decision(Response(400, Refused(InvalidPaymentData)), None, None)
    else if Cents(body.value) < MinimumAmount then Decision(Response(400, Refused(BelowMinimum)), None, None)
    else AfterCharge(body.value, check, provider)
  }

  /** Whether the JavaScript `if (result.payment.orderId)` holds. */
  predicate HasOrderId(r: OrderRecord) {
    r.orderId.Some? && r.orderId.value != []
  }

  /** The store after a completed payment: the record under the key, and under the order id when there is one. */
  function StoreAfter(store: map<string, OrderRecord>, key: string, rec: OrderRecord): map<string, OrderRecord> {
    if HasOrderId(rec) then store[key := rec][rec.orderId.value := rec] else store[key := rec]
  }

  /** The expiries pending after a completed payment: one 24-hour timer per key the record was stored under. */
  function ExpiriesAfter(pending: multiset<string>, key: string, rec: OrderRecord): multiset<string> {
    pending + multiset{key} + (if HasOrderId(rec) then multiset{rec.orderId.value} else multiset{})
  }

  /** Every key a completed payment is stored under has one more timer pending, and no other key does. */
  lemma ExpiryForEachStoredKey(pending: multiset<string>, key: string, rec: OrderRecord, k: string)
    ensures var e := ExpiriesAfter(pending, key, rec);
      e[k] == pending[k] + (if k == key then 1 else 0) + (if HasOrderId(rec) && k == rec.orderId.value then 1 else 0)
  {
  }

  lemma StoredUnderBothKeys(store: map<string, OrderRecord>, key: string, rec: OrderRecord)
    ensures var s := StoreAfter(store, key, rec);
      key in s && s[key] == rec
      && (HasOrderId(rec) ==> rec.orderId.value in s && s[rec.orderId.value] == rec)
      && (forall k :: k in store && k != key && !(HasOrderId(rec) && k == rec.orderId.value) ==> k in s && s[k] == store[k])
      && s.Keys == store.Keys + {key} + (if HasOrderId(rec) then {rec.orderId.value} else {})
  {
  }

  /**
   * `POST` against the server's limiter and order store. The limiter is consulted first, so
   * every request counts against the client's window, valid or not.
   */
  method Post(limiter: RateLimiter, orders: OrderStore, forwardedFor: Option<string>, realIp: Option<string>,
              body: Option<PaymentBody>, provider: ProviderReply, now: int)
    returns (response: Response, charge: Option<Charge>)
    modifies limiter, orders
    ensures var step := CheckStep(old(limiter.requests), limiter.maxRequests, limiter.windowMs,
                                  ClientIp(forwardedFor, realIp), now);
      var d := Decide(step.0, now, body, provider);
      limiter.requests == step.1
      && response == d.response && charge == d.charge
      && (d.stored.None? ==> orders.store == old(orders.store) && orders.pendingExpiries == old(orders.pendingExpiries))
      && (d.stored.Some? ==> orders.store == StoreAfter(old(orders.store), body.value.idempotencyKey, d.stored.value)
                             && orders.pendingExpiries
                                == ExpiriesAfter(old(orders.pendingExpiries), body.value.idempotencyKey, d.stored.value))
  {
    var ip := ClientIp(forwardedFor, realIp);
    var check := limiter.Check(ip, now);
    var d := Decide(check, now, body, provider);
    response := d.response;
    charge := d.charge;
    if d.stored.Some? {
      var rec := d.stored.value;
      orders.Set(body.value.idempotencyKey, rec);
      if HasOrderId(rec) {
        orders.Set(rec.orderId.value, rec);
      }
    }
  }

  /** How the payment form reads a response: `ok` for a 2xx status, then the JSON fields. */
  function AsClientReply(r: Response): PaymentForm.ServerReply {
    match r.body
    case Paid(id, orderId, receiptUrl, _, _) =>
      PaymentForm.Reply(200 <= r.status < 300, true, None, Some(id), orderId, receiptUrl)
    case RateLimited(error, _, _) => PaymentForm.Reply(200 <= r.status < 300, false, Some(error), None, None, None)
    case Refused(error) => PaymentForm.Reply(200 <= r.status < 300, false, Some(error), None, None, None)
  }

  /** The message of a rate-limit denial mentions neither word the form stops on. */
  lemma TooManyAttemptsIsRetried()
    ensures !PaymentForm.NonRetryable(TooManyAttempts)
  {
    PaymentForm.RetriedWithoutIOrV(TooManyAttempts);
  }

  lemma BelowMinimumIsRetried()
    ensures !PaymentForm.NonRetryable(BelowMinimum)
  {
    PaymentForm.RetriedWithoutIOrV(BelowMinimum);
  }

  lemma NotCompletedIsRetried()
    ensures !PaymentForm.NonRetryable(NotCompleted)
  {
    PaymentForm.RetriedWithoutIOrV(NotCompleted);
  }

  lemma InvalidPaymentDataStops()
    ensures PaymentForm.NonRetryable(InvalidPaymentData)
  {
    assert "Invalid" <= InvalidPaymentData;
  }

  /** The payment form's retry loop succeeds exactly when the route stored an order. */
  lemma ClientSucceedsIffStored(check: CheckResult, now: int, body: Option<PaymentBody>, provider: ProviderReply)
    ensures var d := Decide(check, now, body, provider);
      PaymentForm.ProcessPayment(AsClientReply(d.response)).Success? <==> d.stored.Some?
  {
  }

  /** A schema rejection stops the form's retry loop at once. */
  lemma SchemaRejectionStops(check: CheckResult, now: int, body: Option<PaymentBody>, provider: ProviderReply)
    requires check.allowed && body.Some? && !PaymentRequestSchema(body.value)
    ensures PaymentForm.Decisive(AsClientReply(Decide(check, now, body, provider).response))
  {
    InvalidPaymentDataStops();
  }

  /** A rate-limit denial is retried by the form, with the same key. */
  lemma RateLimitRetried(check: CheckResult, now: int, body: Option<PaymentBody>, provider: ProviderReply)
    requires !check.allowed
    ensures !PaymentForm.Decisive(AsClientReply(Decide(check, now, body, provider).response))
  {
    TooManyAttemptsIsRetried();
  }

  /** A refusal reaches the form as a failure carrying its message, which alone decides. */
  lemma RefusalDecidedByMessage(error: string)
    requires error != ""
    ensures PaymentForm.Decisive(AsClientReply(Response(400, Refused(error)))) == PaymentForm.NonRetryable(error)
  {
    assert PaymentForm.ProcessPayment(AsClientReply(Response(400, Refused(error)))) == Failure(error);
  }

  /** A below-minimum amount and a payment that did not complete are retried too. */
  lemma RefusalsRetried()
    ensures !PaymentForm.Decisive(AsClientReply(Response(400, Refused(BelowMinimum))))
    ensures !PaymentForm.Decisive(AsClientReply(Response(400, Refused(NotCompleted))))
  {
    BelowMinimumIsRetried();
    NotCompletedIsRetried();
    RefusalDecidedByMessage(BelowMinimum);
    RefusalDecidedByMessage(NotCompleted);
  }

  /** The body the payment form posts: its fields as sent, and no `orderDetails`. */
  function BodyFromForm(q: PaymentForm.PaymentRequest): PaymentBody {
    PaymentBody(q.sourceId, Finite(q.amount as real), q.currency, q.shippingAddress, q.idempotencyKey, None)
  }

  /**
   * The form never sends `orderDetails`, so an order it pays for is stored with no items and
   * with totals made of the charged amount alone.
   */
  lemma FormOrdersStoreChargedTotal(q: PaymentForm.PaymentRequest, check: CheckResult, now: int, provider: ProviderReply)
    requires Decide(check, now, Some(BodyFromForm(q)), provider).stored.Some?
    ensures var r := Decide(check, now, Some(BodyFromForm(q)), provider).stored.value;
      r.details.items == [] && r.details.totals == OrderTotals(0.0, 0.0, 0.0, q.amount as real / 100.0, q.currency)
      && 100 <= q.amount <= MaximumAmount
  {
  }

  /** A second request carrying the same key after a completed one stores under the same key again. */
  lemma SameKeySameSlot(b: PaymentBody, check: CheckResult, now: int, p1: ProviderReply, p2: ProviderReply,
                        store: map<string, OrderRecord>)
    requires check.allowed && PaymentRequestSchema(b) && Cents(b) >= MinimumAmount
    requires IsCompleted(p1) && IsCompleted(p2)
    ensures var d1 := Decide(check, now, Some(b), p1);
      var d2 := Decide(check, now, Some(b), p2);
      var s := StoreAfter(StoreAfter(store, b.idempotencyKey, d1.stored.value), b.idempotencyKey, d2.stored.value);
      s[b.idempotencyKey] == d2.stored.value && d1.charge == d2.charge
  {
  }
}
