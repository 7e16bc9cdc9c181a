/**
 * The checkout vocabulary: supported countries, shipping methods, order and payment
 * statuses, the per-country threshold and currency tables, the type guards over raw
 * strings, and the field bounds of the address and order-creation schemas.
 */
module CheckoutTypes {
  import opened Wrappers
  import opened JsStrings
  import opened ZodRules

  datatype Country = MX | US | CA
  datatype ShippingMethod = Standard | Express
  datatype OrderStatus =
    | Draft | PendingPayment | Processing | Confirmed | Shipped | Delivered | Cancelled | Failed
  datatype PaymentStatus = Idle | PaymentProcessing | Succeeded | PaymentFailed | PaymentCancelled

  /** `SUPPORTED_COUNTRIES`. */
  const SupportedCountries: seq<string> := ["MX", "US", "CA"]
  /** `SHIPPING_METHODS`. */
  const ShippingMethods: seq<string> := ["standard", "express"]
  /** `ORDER_STATUS`. */
  const OrderStatuses: seq<string> :=
    ["draft", "pending_payment", "processing", "confirmed", "shipped", "delivered", "cancelled", "failed"]
  /** `PAYMENT_STATUS`. */
  const PaymentStatuses: seq<string> := ["idle", "processing", "succeeded", "failed", "cancelled"]

  function CountryCode(c: Country): string {
    match c
    case MX => "MX"
    case US => "US"
    case CA => "CA"
  }

  function MethodCode(m: ShippingMethod): string {
    match m
    case Standard => "standard"
    case Express => "express"
  }

  function OrderStatusCode(s: OrderStatus): string {
    match s
    case Draft => "draft"
    case PendingPayment => "pending_payment"
    case Processing => "processing"
    case Confirmed => "confirmed"
    case Shipped => "shipped"
    case Delivered => "delivered"
    case Cancelled => "cancelled"
    case Failed => "failed"
  }

  function PaymentStatusCode(s: PaymentStatus): string {
    match s
    case Idle => "idle"
    case PaymentProcessing => "processing"
    case Succeeded => "succeeded"
    case PaymentFailed => "failed"
    case PaymentCancelled => "cancelled"
  }

  /** `isValidCountry`: membership in `SUPPORTED_COUNTRIES`. */
  predicate IsValidCountry(s: string) {
    s in SupportedCountries
  }

  /** `isValidShippingMethod`. */
  predicate IsValidShippingMethod(s: string) {
    s in ShippingMethods
  }

  /** `isValidOrderStatus`. */
  predicate IsValidOrderStatus(s: string) {
    s in OrderStatuses
  }

  /** `isValidPaymentStatus`. */
  predicate IsValidPaymentStatus(s: string) {
    s in PaymentStatuses
  }

  /** The narrowing the `isValidCountry` type guard performs. */
  function ParseCountry(s: string): (r: Option<Country>)
    ensures r.Some? <==> IsValidCountry(s)
    ensures r.Some? ==> CountryCode(r.value) == s
  {
    if s == "MX" then Some(MX) else if s == "US" then Some(US) else if s == "CA" then Some(CA) else None
  }

  /** The narrowing the `isValidShippingMethod` type guard performs. */
  function ParseShippingMethod(s: string): (r: Option<ShippingMethod>)
    ensures r.Some? <==> IsValidShippingMethod(s)
    ensures r.Some? ==> MethodCode(r.value) == s
  {
    if s == "standard" then Some(Standard) else if s == "express" then Some(Express) else None
  }

  /** Every country's code passes the guard and narrows back to the same country. */
  lemma CountryCodeRoundTrip(c: Country)
    ensures IsValidCountry(CountryCode(c)) && ParseCountry(CountryCode(c)) == Some(c)
  {
  }

  /** The status guards accept exactly the codes of the 8 order and 5 payment statuses. */
  lemma StatusGuardsExact(s: string)
    ensures IsValidOrderStatus(s) <==> exists st :: OrderStatusCode(st) == s
    ensures IsValidPaymentStatus(s) <==> exists st :: PaymentStatusCode(st) == s
    ensures |OrderStatuses| == 8 && |PaymentStatuses| == 5
  {
    if IsValidOrderStatus(s) {
      var i :| 0 <= i < |OrderStatuses| && OrderStatuses[i] == s;
      var st := [Draft, PendingPayment, Processing, Confirmed, Shipped, Delivered, Cancelled, Failed][i];
      assert OrderStatusCode(st) == s;
    }
    if IsValidPaymentStatus(s) {
      var i :| 0 <= i < |PaymentStatuses| && PaymentStatuses[i] == s;
      var st := [Idle, PaymentProcessing, Succeeded, PaymentFailed, PaymentCancelled][i];
      assert PaymentStatusCode(st) == s;
    }
  }

  /** `FREE_SHIPPING_THRESHOLDS`, in the destination's currency. */
  function FreeShippingThreshold(c: Country): (t: real)
    ensures t > 0.0
  {
    match c
    case MX => 1000.0
    case US => 75.0
    case CA => 100.0
  }

  /** `COUNTRY_CURRENCIES`. */
  function CountryCurrency(c: Country): string {
    match c
    case MX => "MXN"
    case US => "USD"
    case CA => "CAD"
  }

  /** `SHIPPING_METHOD_NAMES`. */
  function MethodName(m: ShippingMethod): string {
    match m
    case Standard => "Standard Shipping"
    case Express => "Express Shipping"
  }

  /** No two countries share a currency, so the currency identifies the destination. */
  lemma CurrencyIdentifiesCountry(c1: Country, c2: Country)
    ensures CountryCurrency(c1) == CountryCurrency(c2) <==> c1 == c2
  {
  }

  /** `ShippingAddress`; `country` is the raw string the form submitted. */
  datatype ShippingAddress = ShippingAddress(
    firstName: string,
    lastName: string,
    email: string,
    phone: string,
    address1: string,
    address2: Option<string>,
    city: string,
    state: string,
    postalCode: string,
    country: string)

  /** `ShippingRate`. */
  datatype ShippingRate = ShippingRate(
    shippingMethod: ShippingMethod,
    name: string,
    description: string,
    price: real,
    currency: string,
    estimatedDays: string)

  /** `ShippingInfo`. */
  datatype ShippingInfo = ShippingInfo(
    address: ShippingAddress,
    selectedRate: ShippingRate,
    availableRates: seq<ShippingRate>)

  /** `TaxInfo`. */
  datatype TaxInfo = TaxInfo(
    rate: real,
    amount: real,
    name: string,
    description: string,
    country: string,
    region: Option<string>)

  /** `OrderTotals`. */
  datatype OrderTotals = OrderTotals(
    subtotal: real,
    shipping: real,
    tax: real,
    total: real,
    currency: string)

  predicate LengthIn(s: string, lo: int, hi: int) { lo <= |s| <= hi }

  /** `ShippingAddressSchema`: every bound the schema places on a submitted address. */
  predicate ShippingAddressSchema(a: ShippingAddress) {
    LengthIn(a.firstName, 1, 50)
    && LengthIn(a.lastName, 1, 50)
    && ZodEmail(a.email)
    && LengthIn(a.phone, 10, 20)
    && LengthIn(a.address1, 1, 100)
    && (a.address2.Some? ==> |a.address2.value| <= 100)
    && LengthIn(a.city, 1, 50)
    && LengthIn(a.state, 1, 50)
    && LengthIn(a.postalCode, 3, 20)
    && IsValidCountry(a.country)
  }

  /** One line of `CreateOrderSchema.items`: an id and a quantity in 1..10 (not necessarily whole). */
  datatype OrderLineRequest = OrderLineRequest(id: string, quantity: real)

  /** `CreateOrderSchema`: at least one item, each within 1..10, a valid method and address, short notes. */
  predicate CreateOrderSchema(items: seq<OrderLineRequest>, shippingMethod: string, address: ShippingAddress,
                              customerNotes: Option<string>) {
    |items| >= 1
    && (forall i :: 0 <= i < |items| ==> 1.0 <= items[i].quantity <= 10.0)
    && IsValidShippingMethod(shippingMethod)
    && ShippingAddressSchema(address)
    && (customerNotes.Some? ==> |customerNotes.value| <= 500)
  }

  /** An address the schema accepts is one the country guard, and hence every calculator, accepts. */
  lemma SchemaAddressHasSupportedCountry(a: ShippingAddress)
    requires ShippingAddressSchema(a)
    ensures ParseCountry(a.country).Some?
    ensures |a.firstName| >= 1 && |a.phone| >= 10 && |a.postalCode| >= 3
  {
  }
}
