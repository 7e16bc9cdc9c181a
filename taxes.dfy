/**
 * The tax calculator: a base rate per country, overridden for the United States by a
 * per-state table and for Canada by a per-province table, the state or province code
 * being upper-cased before the lookup.
 */
module Taxes {
  import opened Wrappers
  import opened JsStrings
  import opened JsObjects
  import opened CheckoutTypes

  /** One entry of `TAX_RATES`. */
  datatype CountryTax = CountryTax(base: real, name: string, description: string)

  /** `TAX_RATES`. */
  function CountryTaxOf(c: Country): (t: CountryTax)
    ensures 0.0 < t.base <= 0.16
  {
    match c
    case MX => CountryTax(0.16, "IVA", "Impuesto al Valor Agregado")
    case US => CountryTax(0.08, "Sales Tax", "State and Local Sales Tax")
    case CA => CountryTax(0.05, "GST", "Goods and Services Tax")
  }

  /** The five states the table lists with no sales tax. */
  const NoSalesTaxStates: set<string> := {"AK", "DE", "MT", "NH", "OR"}

  /** `US_STATE_TAX_RATES[code]`: 50 entries; every rate is in 0..8%, and 0 only for five states. */
  function StateTaxRate(code: string): (r: Option<real>)
    ensures r.Some? ==> 0.0 <= r.value <= 0.08
    ensures r == Some(0.0) ==> code in NoSalesTaxStates
  {
    match code
    case "AL" => Some(0.04)
    case "AK" => Some(0.0)
    case "AZ" => Some(0.056)
    case "AR" => Some(0.065)
    case "CA" => Some(0.0725)
    case "CO" => Some(0.029)
    case "CT" => Some(0.0635)
    case "DE" => Some(0.0)
    case "FL" => Some(0.06)
    case "GA" => Some(0.04)
    case "HI" => Some(0.04)
    case "ID" => Some(0.06)
    case "IL" => Some(0.0625)
    case "IN" => Some(0.07)
    case "IA" => Some(0.06)
    case "KS" => Some(0.065)
    case "KY" => Some(0.06)
    case "LA" => Some(0.0445)
    case "ME" => Some(0.055)
    case "MD" => Some(0.06)
    case "MA" => Some(0.0625)
    case "MI" => Some(0.06)
    case "MN" => Some(0.06875)
    case "MS" => Some(0.07)
    case "MO" => Some(0.04225)
    case "MT" => Some(0.0)
    case "NE" => Some(0.055)
    case "NV" => Some(0.0685)
    case "NH" => Some(0.0)
    case "NJ" => Some(0.06625)
    case "NM" => Some(0.05125)
    case "NY" => Some(0.08)
    case "NC" => Some(0.0475)
    case "ND" => Some(0.05)
    case "OH" => Some(0.0575)
    case "OK" => Some(0.045)
    case "OR" => Some(0.0)
    case "PA" => Some(0.06)
    case "RI" => Some(0.07)
    case "SC" => Some(0.06)
    case "SD" => Some(0.045)
    case "TN" => Some(0.07)
    case "TX" => Some(0.0625)
    case "UT" => Some(0.0485)
    case "VT" => Some(0.06)
    case "VA" => Some(0.053)
    case "WA" => Some(0.065)
    case "WV" => Some(0.06)
    case "WI" => Some(0.05)
    case "WY" => Some(0.04)
    case _ => None
  }

  /** One entry of `CA_PROVINCIAL_TAX_RATES`. */
  datatype ProvinceTax = ProvinceTax(rate: real, name: string)

  /** `CA_PROVINCIAL_TAX_RATES[code]`: 13 provinces and territories, every rate in 5..15%. */
  function ProvinceTaxOf(code: string): (r: Option<ProvinceTax>)
    ensures r.Some? ==> 0.05 <= r.value.rate <= 0.15
  {
    match code
    case "AB" => Some(ProvinceTax(0.05, "GST"))
    case "BC" => Some(ProvinceTax(0.12, "GST + PST"))
    case "MB" => Some(ProvinceTax(0.12, "GST + PST"))
    case "NB" => Some(ProvinceTax(0.15, "HST"))
    case "NL" => Some(ProvinceTax(0.15, "HST"))
    case "NT" => Some(ProvinceTax(0.05, "GST"))
    case "NS" => Some(ProvinceTax(0.15, "HST"))
    case "NU" => Some(ProvinceTax(0.05, "GST"))
    case "ON" => Some(ProvinceTax(0.13, "HST"))
    case "PE" => Some(ProvinceTax(0.15, "HST"))
    case "QC" => Some(ProvinceTax(0.14975, "GST + QST"))
    case "SK" => Some(ProvinceTax(0.11, "GST + PST"))
    case "YT" => Some(ProvinceTax(0.05, "GST"))
    case _ => None
  }

  /** `US_STATE_TAX_RATES[code] || TAX_RATES.US.base`: a missing or zero state rate falls back to 8%. */
  function UsRate(code: string): (r: real)
    ensures 0.0 < r <= 0.08
    ensures StateTaxRate(code).Some? && StateTaxRate(code).value != 0.0 ==> r == StateTaxRate(code).value
    ensures StateTaxRate(code).None? || StateTaxRate(code).value == 0.0 ==> r == CountryTaxOf(US).base
  {
    var st := StateTaxRate(code);
    if st.Some? && st.value != 0.0 then st.value else CountryTaxOf(US).base
  }

  /**
   * The `switch` of `calculateTax`, given the country string and the already upper-cased
   * state or province code.
   */
  function TaxForCode(country: string, code: string, amount: real): (r: Result<TaxInfo, string>)
    ensures r.Success? <==> IsValidCountry(country)
    ensures r.Failure? && country !in ObjectPrototypeKeys ==> r.error == "Tax calculation not supported for " + country
    ensures r.Failure? && country in ObjectPrototypeKeys ==> r.error == "Unsupported country: " + country
    ensures r.Success? ==> r.value.amount == amount * r.value.rate && r.value.country == country
    ensures r.Success? ==> 0.0 < r.value.rate <= 0.16
  {
    match ParseCountry(country)
    case None =>
      if country in ObjectPrototypeKeys then Failure("Unsupported country: " + country)
      else Failure("Tax calculation not supported for " + country)
    case Some(MX) =>
      var t := CountryTaxOf(MX);
      Success(TaxInfo(t.base, amount * t.base, t.name, t.description, country, None))
    case Some(US) =>
      var t := CountryTaxOf(US);
      var rate := UsRate(code);
      Success(TaxInfo(rate, amount * rate, t.name, t.description + " (" + code + ")", country, Some(code)))
    case Some(CA) =>
      match ProvinceTaxOf(code)
      case Some(p) =>
        Success(TaxInfo(p.rate, amount * p.rate, p.name, p.name + " (" + code + ")", country, Some(code)))
      case None =>
        var t := CountryTaxOf(CA);
        Success(TaxInfo(t.base, amount * t.base, t.name, t.description, country, None))
  }

  /**
   * `calculateTax`. An unsupported country fails with "Tax calculation not supported";
   * a name inherited by every object passes that guard and fails in the `switch` instead.
   * The amount is the taxable amount times the rate.
   */
  function CalculateTax(address: ShippingAddress, amount: real): (r: Result<TaxInfo, string>)
    ensures r.Success? <==> IsValidCountry(address.country)
    ensures r.Failure? && address.country !in ObjectPrototypeKeys ==>
              r.error == "Tax calculation not supported for " + address.country
    ensures r.Failure? && address.country in ObjectPrototypeKeys ==>
              r.error == "Unsupported country: " + address.country
    ensures r.Success? ==> r.value.amount == amount * r.value.rate && r.value.country == address.country
    ensures r.Success? ==> 0.0 < r.value.rate <= 0.16
  {
    TaxForCode(address.country, ToUpper(address.state), amount)
  }

  /** Mexico: always 16% IVA, with no region. */
  lemma MexicoTax(address: ShippingAddress, amount: real)
    requires address.country == "MX"
    ensures var t := CalculateTax(address, amount);
            t.Success? && t.value.rate == 0.16 && t.value.name == "IVA" && t.value.region == None
  {
  }

  /**
   * United States: the state table's rate for the upper-cased code when it is non-zero,
   * otherwise 8%; the region is the upper-cased code even when the table lacks it.
   */
  lemma UnitedStatesTax(address: ShippingAddress, amount: real)
    requires address.country == "US"
    ensures var code := ToUpper(address.state);
            var t := CalculateTax(address, amount);
            t.Success? && t.value.region == Some(code) && t.value.name == "Sales Tax"
            && t.value.rate == (if StateTaxRate(code).Some? && StateTaxRate(code).value != 0.0 then StateTaxRate(code).value else 0.08)
  {
  }

  /** The five states without sales tax are charged the 8% fallback, not 0%. */
  lemma ZeroRateStatesFallBack(address: ShippingAddress, amount: real)
    requires address.country == "US" && ToUpper(address.state) in NoSalesTaxStates
    ensures CalculateTax(address, amount).value.rate == 0.08
  {
  }

  /** Canada: a known province gives its rate, name and region; any other code gives 5% GST and no region. */
  lemma CanadaTax(address: ShippingAddress, amount: real)
    requires address.country == "CA"
    ensures var code := ToUpper(address.state);
            var t := CalculateTax(address, amount);
            t.Success?
            && (ProvinceTaxOf(code).Some? ==>
                  t.value.rate == ProvinceTaxOf(code).value.rate && t.value.name == ProvinceTaxOf(code).value.name
                  && t.value.region == Some(code))
            && (ProvinceTaxOf(code).None? ==>
                  t.value.rate == 0.05 && t.value.name == "GST" && t.value.region == None)
  {
  }

  /** The state or province code is looked up case-insensitively. */
  lemma StateLookupCaseInsensitive(a: ShippingAddress, b: ShippingAddress, amount: real)
    requires a.country == b.country && ToUpper(a.state) == ToUpper(b.state)
    ensures CalculateTax(a, amount) == CalculateTax(b, amount)
  {
  }

  lemma LowerCaseCaliforniaSameAsUpper(address: ShippingAddress, amount: real)
    requires address.country == "US"
    ensures CalculateTax(address.(state := "ca"), amount) == CalculateTax(address.(state := "CA"), amount)
    ensures CalculateTax(address.(state := "CA"), amount).value.rate == 0.0725
  {
    assert ToUpper("ca") == "CA";
    assert ToUpper("CA") == "CA";
    StateLookupCaseInsensitive(address.(state := "ca"), address.(state := "CA"), amount);
  }

  /** `getTaxRate`; a missing or empty state (`if (state)`) gives the country's base rate. */
  function GetTaxRate(c: Country, state: Option<string>): (r: real)
    ensures 0.0 < r <= 0.16
    ensures state.None? || state.value == [] ==> r == CountryTaxOf(c).base
  {
    match c
    case MX => CountryTaxOf(MX).base
    case US =>
      if state.Some? && state.value != [] then UsRate(ToUpper(state.value)) else CountryTaxOf(US).base
    case CA =>
      if state.Some? && state.value != [] then
        var p := ProvinceTaxOf(ToUpper(state.value));
        if p.Some? && p.value.rate != 0.0 then p.value.rate else CountryTaxOf(CA).base
      else CountryTaxOf(CA).base
  }

  /** `getTaxRate(c, s)` is the rate `calculateTax` charges at `c` with state `s`, whatever the amount. */
  lemma GetTaxRateAgreesWithCalculateTax(c: Country, state: Option<string>, address: ShippingAddress, amount: real)
    requires address.country == CountryCode(c) && address.state == state.GetOr([])
    ensures CalculateTax(address, amount).Success?
    ensures GetTaxRate(c, state) == CalculateTax(address, amount).value.rate
  {
    assert ToUpper([]) == [];
  }

  /** The display summary `getTaxInfo` returns. */
  datatype TaxSummary = TaxSummary(rate: real, name: string, description: string)

  /** `getTaxInfo`; an empty state code is falsy and gives the country-level description. */
  function GetTaxInfo(c: Country, state: Option<string>): (r: TaxSummary)
    ensures r.rate == GetTaxRate(c, state)
    ensures r.name == CountryTaxOf(c).name || (c == CA && state.Some? && ProvinceTaxOf(ToUpper(state.value)).Some?)
  {
    var code := if state.Some? then ToUpper(state.value) else [];
    match c
    case MX => TaxSummary(CountryTaxOf(MX).base, CountryTaxOf(MX).name, CountryTaxOf(MX).description)
    case US =>
      var t := CountryTaxOf(US);
      if code != [] then TaxSummary(UsRate(code), t.name, t.description + " (" + code + ")")
      else TaxSummary(t.base, t.name, t.description)
    case CA =>
      var p := if code != [] then ProvinceTaxOf(code) else None;
      if p.Some? then
        var p := p.value;
        TaxSummary(p.rate, p.name, p.name + " (" + code + ")")
      else
        var t := CountryTaxOf(CA);
        TaxSummary(t.base, t.name, t.description)
  }

  /** For a non-empty state, the summary carries the same rate, name and description as `calculateTax`. */
  lemma GetTaxInfoAgreesWithCalculateTax(c: Country, s: string, address: ShippingAddress, amount: real)
    requires s != [] && address.country == CountryCode(c) && address.state == s
    ensures var info := GetTaxInfo(c, Some(s));
            var t := CalculateTax(address, amount).value;
            info == TaxSummary(t.rate, t.name, t.description)
  {
  }

  /** `country in TAX_RATES`, as written: inherited property names count as present. */
  predicate IsTaxCalculationSupportedAsWritten(country: string) {
    InObjectLiteral(country, set s | s in SupportedCountries)
  }

  /** The guard as evidently intended: only the table's own keys. */
  predicate IsTaxCalculationSupported(country: string) {
    IsValidCountry(country)
  }

  /** As written, the guard accepts "constructor", for which the calculator then fails. */
  lemma TaxGuardAcceptsPrototypeName(address: ShippingAddress, amount: real)
    requires address.country == "constructor"
    ensures IsTaxCalculationSupportedAsWritten(address.country)
    ensures CalculateTax(address, amount) == Failure("Unsupported country: " + address.country)
  {
    assert "constructor" in ObjectPrototypeKeys;
  }

  /** The intended guard holds exactly when the calculator succeeds. */
  lemma TaxGuardMatchesCalculator(address: ShippingAddress, amount: real)
    ensures IsTaxCalculationSupported(address.country) <==> CalculateTax(address, amount).Success?
    ensures IsTaxCalculationSupported(address.country) ==> IsTaxCalculationSupportedAsWritten(address.country)
  {
  }
}
