/**
 * The shipping-rate calculator: a fixed table of standard and express prices per
 * country, free standard shipping above the country's threshold, express never free.
 */
module Shipping {
  import opened Wrappers
  import opened JsObjects
  import opened CheckoutTypes

  /** `SHIPPING_RATES[country][method].price`, in the country's currency. */
  function TablePrice(c: Country, m: ShippingMethod): (p: real)
    ensures p > 0.0
  {
    match (c, m)
    case (MX, Standard) => 150.0
    case (MX, Express) => 300.0
    case (US, Standard) => 15.0
    case (US, Express) => 35.0
    case (CA, Standard) => 20.0
    case (CA, Express) => 40.0
  }

  /** In every country express costs more than standard. */
  lemma ExpressCostsMore(c: Country)
    ensures TablePrice(c, Standard) < TablePrice(c, Express)
  {
  }

  /** `SHIPPING_RATES[country][method].estimatedDays`: the same for every country. */
  function EstimatedDays(m: ShippingMethod): string {
    match m
    case Standard => "5-7 business days"
    case Express => "2-3 business days"
  }

  /** `SHIPPING_DESCRIPTIONS`. */
  function Description(c: Country, m: ShippingMethod): string {
    match (c, m)
    case (MX, Standard) => "Envío estándar por Correos de México"
    case (MX, Express) => "Envío express por DHL/FedEx"
    case (US, Standard) => "Standard shipping via USPS"
    case (US, Express) => "Express shipping via FedEx/UPS"
    case (CA, Standard) => "Standard shipping via Canada Post"
    case (CA, Express) => "Express shipping via Purolator/FedEx"
  }

  /**
   * `cartTotal && cartTotal >= threshold`: an absent total, and a total of 0, are falsy
   * and never qualify.
   */
  predicate TotalQualifies(c: Country, cartTotal: Option<real>) {
    cartTotal.Some? && cartTotal.value != 0.0 && cartTotal.value >= FreeShippingThreshold(c)
  }

  /** `getShippingRate`: the one rate for a country and method. */
  function GetShippingRate(c: Country, m: ShippingMethod, cartTotal: Option<real>): (r: ShippingRate)
    ensures r.shippingMethod == m && r.currency == CountryCurrency(c)
    ensures r.price == 0.0 <==> m == Standard && TotalQualifies(c, cartTotal)
    ensures r.price != 0.0 ==> r.price == TablePrice(c, m)
    ensures m == Express ==> r.price == TablePrice(c, Express) > 0.0
  {
    var free := m == Standard && TotalQualifies(c, cartTotal);
    ShippingRate(m, MethodName(m), Description(c, m), if free then 0.0 else TablePrice(c, m),
                 CountryCurrency(c), EstimatedDays(m))
  }

  /** An address whose country is not a key of the rate table. */
  datatype ShippingError =
    | NotAvailable(message: string)
    /** A name inherited from `Object.prototype` passes the guard and then fails reading `.standard.price`. */
    | PrototypeLookup(key: string)

  /**
   * `calculateShippingRates`: fails for an unsupported country, otherwise returns the
   * standard rate (free above the threshold) followed by the express rate.
   */
  function CalculateShippingRates(address: ShippingAddress, cartTotal: Option<real>): (r: Result<seq<ShippingRate>, ShippingError>)
    ensures r.Success? <==> IsValidCountry(address.country)
    ensures r.Failure? && address.country !in ObjectPrototypeKeys ==>
              r.error == NotAvailable("Shipping not available to " + address.country)
    ensures r.Success? ==>
              |r.value| == 2 && r.value[0].shippingMethod == Standard && r.value[1].shippingMethod == Express
              && r.value[1].price == TablePrice(ParseCountry(address.country).value, Express)
              && (forall i :: 0 <= i < 2 ==> r.value[i].currency == CountryCurrency(ParseCountry(address.country).value))
  {
    match ParseCountry(address.country)
    case None =>
      if address.country in ObjectPrototypeKeys then Failure(PrototypeLookup(address.country))
      else Failure(NotAvailable("Shipping not available to " + address.country))
    case Some(c) =>
      Success([GetShippingRate(c, Standard, cartTotal), GetShippingRate(c, Express, cartTotal)])
  }

  /** Each rate of the list is the one `getShippingRate` gives for its method. */
  lemma RatesAgreeWithGetShippingRate(address: ShippingAddress, cartTotal: Option<real>, m: ShippingMethod)
    requires IsValidCountry(address.country)
    ensures exists i :: 0 <= i < |CalculateShippingRates(address, cartTotal).value|
                        && CalculateShippingRates(address, cartTotal).value[i]
                           == GetShippingRate(ParseCountry(address.country).value, m, cartTotal)
  {
    var rates := CalculateShippingRates(address, cartTotal).value;
    if m == Standard { assert rates[0] == GetShippingRate(ParseCountry(address.country).value, m, cartTotal); }
    else { assert rates[1] == GetShippingRate(ParseCountry(address.country).value, m, cartTotal); }
  }

  /** Standard shipping is free exactly when the cart total reaches the threshold. */
  lemma StandardFreeExactly(address: ShippingAddress, cartTotal: Option<real>)
    requires IsValidCountry(address.country)
    ensures var c := ParseCountry(address.country).value;
            var standard := CalculateShippingRates(address, cartTotal).value[0];
            (standard.price == 0.0 <==> cartTotal.Some? && cartTotal.value >= FreeShippingThreshold(c))
            && (standard.price != 0.0 ==> standard.price == TablePrice(c, Standard))
  {
    assert FreeShippingThreshold(ParseCountry(address.country).value) > 0.0;
  }

  /** `getFreeShippingThreshold`. */
  function GetFreeShippingThreshold(c: Country): (t: real)
    ensures t > 0.0 && t == FreeShippingThreshold(c)
  {
    FreeShippingThreshold(c)
  }

  /** `qualifiesForFreeShipping`. */
  predicate QualifiesForFreeShipping(c: Country, cartTotal: real) {
    cartTotal >= FreeShippingThreshold(c)
  }

  /** The standalone check agrees with the price the rate table gives standard shipping. */
  lemma QualifiesAgreesWithStandardRate(c: Country, cartTotal: real)
    ensures QualifiesForFreeShipping(c, cartTotal) <==> GetShippingRate(c, Standard, Some(cartTotal)).price == 0.0
    ensures !QualifiesForFreeShipping(c, 0.0)
  {
    assert FreeShippingThreshold(c) > 0.0;
  }

  /** `country in SHIPPING_RATES`, as written: inherited property names count as present. */
  predicate IsShippingAvailableAsWritten(country: string) {
    InObjectLiteral(country, set s | s in SupportedCountries)
  }

  /** The guard as evidently intended: only the table's own keys. */
  predicate IsShippingAvailable(country: string) {
    IsValidCountry(country)
  }

  /** As written, the guard accepts "toString", for which the calculator then fails. */
  lemma AvailabilityGuardAcceptsPrototypeName()
    ensures IsShippingAvailableAsWritten("toString")
    ensures CalculateShippingRates(ShippingAddress("", "", "", "", "", None, "", "", "", "toString"), None).Failure?
  {
    assert "toString" in ObjectPrototypeKeys;
  }

  /** The intended guard holds exactly when rates can be calculated. */
  lemma AvailabilityMatchesCalculator(address: ShippingAddress, cartTotal: Option<real>)
    ensures IsShippingAvailable(address.country) <==> CalculateShippingRates(address, cartTotal).Success?
    ensures IsShippingAvailable(address.country) ==> IsShippingAvailableAsWritten(address.country)
  {
  }

  /** What `formatShippingRate` shows: the word "FREE", or an amount in the rate's currency. */
  datatype RateLabel = Free | Amount(price: real, currency: string)

  /** `formatShippingRate`; the `Intl` currency text of a priced rate is not modelled. */
  function FormatShippingRate(rate: ShippingRate): (l: RateLabel)
    ensures l == Free <==> rate.price == 0.0
    ensures l.Amount? ==> l.price == rate.price && l.currency == rate.currency
  {
    if rate.price == 0.0 then Free else Amount(rate.price, rate.currency)
  }

  /** Express is never shown as free, whatever the cart total. */
  lemma ExpressNeverLabelledFree(c: Country, cartTotal: Option<real>)
    ensures FormatShippingRate(GetShippingRate(c, Express, cartTotal)).Amount?
  {
  }
}
