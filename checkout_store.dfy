/**
 * The checkout store: the current step, a snapshot of the cart, the chosen shipping,
 * the tax and the totals, with the loading and error flags the pages read. Each action
 * is a function on a `CheckoutState` value; the `Checkout` class holds the fields and
 * applies them in the source's order.
 */
module CheckoutStore {
  import opened Wrappers
  import opened CheckoutTypes
  import opened CartTypes
  import opened CartStore
  import opened Taxes

  datatype CheckoutStep = CartStep | ShippingStep | PaymentStep | ConfirmationStep

  /** `PaymentInfo`, reduced to the fields the checkout flow reads. */
  datatype PaymentInfo = PaymentInfo(status: PaymentStatus, amount: real, currency: string, transactionId: Option<string>)

  /** `CheckoutState` (the `order` field, which no action writes, is left out). */
  datatype CheckoutState = CheckoutState(
    currentStep: CheckoutStep,
    items: seq<CartItem>,
    shipping: Option<ShippingInfo>,
    tax: Option<TaxInfo>,
    payment: Option<PaymentInfo>,
    totals: OrderTotals,
    isLoading: bool,
    error: Option<string>)

  /** `totals.total` is the sum of its three parts. */
  predicate TotalsConsistent(t: OrderTotals) {
    t.total == t.subtotal + t.shipping + t.tax
  }

  /** `initialState`: on the cart step, nothing chosen, zero totals in USD. */
  function InitialState(): (s: CheckoutState)
    ensures s.currentStep == CartStep && s.items == [] && !s.isLoading
    ensures s.totals == OrderTotals(0.0, 0.0, 0.0, 0.0, "USD") && TotalsConsistent(s.totals)
  {
    CheckoutState(CartStep, [], None, None, None, OrderTotals(0.0, 0.0, 0.0, 0.0, "USD"), false, None)
  }

  /** `setStep`: any step may follow any other. */
  function SetStepOn(s: CheckoutState, step: CheckoutStep): (r: CheckoutState)
    ensures r.currentStep == step && r == s.(currentStep := step)
  {
    s.(currentStep := step)
  }

  /** The tax part of `calculateTotals`: a failing calculator leaves no tax info. */
  function TaxFor(shipping: Option<ShippingInfo>, taxable: real): (t: Option<TaxInfo>)
    ensures shipping.None? ==> t.None?
    ensures shipping.Some? ==> (t.Some? <==> CalculateTax(shipping.value.address, taxable).Success?)
    ensures t.Some? ==> shipping.Some? && t.value == CalculateTax(shipping.value.address, taxable).value
  {
    if shipping.None? then None
    else
      var res := CalculateTax(shipping.value.address, taxable);
      if res.Success? then Some(res.value) else None
  }

  /** The snapshot of the cart and the totals `calculateTotals` computes from it. */
  datatype TotalsOutcome = TotalsOutcome(totals: OrderTotals, tax: Option<TaxInfo>)

  /**
   * `calculateTotals`: subtotal from the cart, shipping from the selected rate (0 without
   * one), tax on subtotal plus shipping (0 without an address or when the calculator
   * fails), and the selected rate's currency, falling back to USD when it is missing or empty.
   */
  function ComputeTotals(cartItems: seq<CartItem>, shipping: Option<ShippingInfo>): (o: TotalsOutcome)
    ensures TotalsConsistent(o.totals)
    ensures o.totals.subtotal == GetTotalPrice(cartItems)
    ensures o.totals.shipping == if shipping.Some? then shipping.value.selectedRate.price else 0.0
    ensures o.totals.tax == if o.tax.Some? then o.tax.value.amount else 0.0
    ensures o.tax == TaxFor(shipping, o.totals.subtotal + o.totals.shipping)
    ensures o.totals.currency ==
              if shipping.Some? && shipping.value.selectedRate.currency != "" then shipping.value.selectedRate.currency else "USD"
  {
    var subtotal := GetTotalPrice(cartItems);
    var shippingCost := if shipping.Some? then shipping.value.selectedRate.price else 0.0;
    var taxInfo := TaxFor(shipping, subtotal + shippingCost);
    var tax := if taxInfo.Some? then taxInfo.value.amount else 0.0;
    var currency := if shipping.Some? && shipping.value.selectedRate.currency != "" then shipping.value.selectedRate.currency else "USD";
    TotalsOutcome(OrderTotals(subtotal, shippingCost, tax, subtotal + shippingCost + tax, currency), taxInfo)
  }

  /** For a valid cart and a non-negative shipping price, no part of the totals is negative. */
  lemma TotalsNonNegative(cartItems: seq<CartItem>, shipping: Option<ShippingInfo>)
    requires AllOk(cartItems)
    requires shipping.Some? ==> shipping.value.selectedRate.price >= 0.0
    ensures var t := ComputeTotals(cartItems, shipping).totals;
            t.subtotal >= 0.0 && t.shipping >= 0.0 && t.tax >= 0.0 && t.total >= t.subtotal + t.shipping
  {
    var t := ComputeTotals(cartItems, shipping);
    if t.tax.Some? {
      NonNegativeProduct(t.totals.subtotal + t.totals.shipping, t.tax.value.rate);
    }
  }

  lemma NonNegativeProduct(a: real, b: real)
    requires a >= 0.0 && b >= 0.0
    ensures a * b >= 0.0
  {
  }

  /** The state after `calculateTotals`, given the cart's current items. */
  function CalculateTotalsOn(s: CheckoutState, cartItems: seq<CartItem>): (r: CheckoutState)
    ensures r.items == cartItems && TotalsConsistent(r.totals)
    ensures r.totals.subtotal == GetTotalPrice(cartItems)
    ensures r == s.(items := cartItems, tax := ComputeTotals(cartItems, s.shipping).tax,
                    totals := ComputeTotals(cartItems, s.shipping).totals)
  {
    var o := ComputeTotals(cartItems, s.shipping);
    s.(items := cartItems, tax := o.tax, totals := o.totals)
  }

  /**
   * `updateShipping`: records the address and the one rate, recomputes the totals and ends
   * not loading with no error. Its `catch` cannot be reached, since `calculateTotals`
   * absorbs tax failures itself.
   */
  function UpdateShippingOn(s: CheckoutState, cartItems: seq<CartItem>, address: ShippingAddress, rate: ShippingRate)
    : (r: CheckoutState)
    ensures r.shipping == Some(ShippingInfo(address, rate, [rate]))
    ensures !r.isLoading && r.error.None?
    ensures r.items == cartItems && TotalsConsistent(r.totals) && r.totals.shipping == rate.price
    ensures r.totals == ComputeTotals(cartItems, r.shipping).totals && r.tax == ComputeTotals(cartItems, r.shipping).tax
    ensures r.totals.subtotal == GetTotalPrice(cartItems)
            && r.totals.currency == (if rate.currency != "" then rate.currency else "USD")
            && r.tax == TaxFor(r.shipping, GetTotalPrice(cartItems) + rate.price)
    ensures r.currentStep == s.currentStep && r.payment == s.payment
  {
    var loading := s.(isLoading := true, error := None);
    var withShipping := loading.(shipping := Some(ShippingInfo(address, rate, [rate])));
    CalculateTotalsOn(withShipping, cartItems).(isLoading := false)
  }

  /** `updatePayment`. */
  function UpdatePaymentOn(s: CheckoutState, payment: PaymentInfo): (r: CheckoutState)
    ensures r.payment == Some(payment) && r == s.(payment := Some(payment))
  {
    s.(payment := Some(payment))
  }

  /**
   * `checkoutSelectors.isReadyForPayment`: a non-empty cart snapshot, an address and a
   * rate, not loading and no error (an empty error string is falsy and counts as none).
   */
  predicate IsReadyForPayment(s: CheckoutState) {
    |s.items| > 0 && s.shipping.Some? && !s.isLoading && (s.error.None? || s.error.value == "")
  }

  /** Choosing shipping for a non-empty cart always makes the checkout ready for payment. */
  lemma ReadyAfterShipping(s: CheckoutState, cartItems: seq<CartItem>, address: ShippingAddress, rate: ShippingRate)
    requires cartItems != []
    ensures IsReadyForPayment(UpdateShippingOn(s, cartItems, address, rate))
  {
  }

  /** Loading, an error or an empty cart each block payment. */
  lemma EachGateBlocks(s: CheckoutState)
    ensures s.isLoading ==> !IsReadyForPayment(s)
    ensures s.items == [] ==> !IsReadyForPayment(s)
    ensures s.shipping.None? ==> !IsReadyForPayment(s)
    ensures s.error.Some? && s.error.value != "" ==> !IsReadyForPayment(s)
  {
  }

  /**
   * `reset` as written: `set(initialState)` merges, so the fields `initialState` does not
   * mention (shipping, tax, payment, error) keep their old values.
   */
  function ResetAsWritten(s: CheckoutState): (r: CheckoutState)
    ensures r.currentStep == CartStep && r.items == [] && r.totals == InitialState().totals && !r.isLoading
    ensures r.shipping == s.shipping && r.tax == s.tax && r.payment == s.payment && r.error == s.error
  {
    var init := InitialState();
    s.(currentStep := init.currentStep, items := init.items, totals := init.totals, isLoading := init.isLoading)
  }

  /** A reset after a completed checkout still holds the customer's address. */
  lemma ResetKeepsAddress(s: CheckoutState)
    requires s.shipping.Some?
    ensures ResetAsWritten(s) != InitialState()
    ensures ResetAsWritten(s).shipping.value.address == s.shipping.value.address
  {
  }

  /** `reset` as intended: back to exactly `initialState`. */
  function ResetOn(s: CheckoutState): (r: CheckoutState)
    ensures r == InitialState() && r.shipping.None? && r.error.None? && !IsReadyForPayment(r)
  {
    InitialState()
  }

  /** `useCheckoutStore`. */
  class Checkout {
    var currentStep: CheckoutStep
    var items: seq<CartItem>
    var shipping: Option<ShippingInfo>
    var tax: Option<TaxInfo>
    var payment: Option<PaymentInfo>
    var totals: OrderTotals
    var isLoading: bool
    var error: Option<string>

    function State(): CheckoutState
      reads this
    {
      CheckoutState(currentStep, items, shipping, tax, payment, totals, isLoading, error)
    }

    method Assign(s: CheckoutState)
      modifies this
      ensures State() == s
    {
      currentStep, items, shipping, tax, payment := s.currentStep, s.items, s.shipping, s.tax, s.payment;
      totals, isLoading, error := s.totals, s.isLoading, s.error;
    }

    constructor()
      ensures State() == InitialState()
    {
      currentStep, items, shipping, tax, payment := CartStep, [], None, None, None;
      totals, isLoading, error := OrderTotals(0.0, 0.0, 0.0, 0.0, "USD"), false, None;
    }

    method SetStep(step: CheckoutStep)
      modifies this
      ensures State() == SetStepOn(old(State()), step)
    {
      currentStep := step;
    }

    /** `calculateTotals`, reading the live cart. */
    method CalculateTotals(cart: Cart)
      modifies this
      ensures State() == CalculateTotalsOn(old(State()), cart.items)
      ensures TotalsConsistent(totals) && items == cart.items
    {
      var o := ComputeTotals(cart.items, shipping);
      items, tax, totals := cart.items, o.tax, o.totals;
    }

    /** `updateShipping`: the loading flag is raised, the totals recomputed, then the flag cleared. */
    method UpdateShipping(cart: Cart, address: ShippingAddress, rate: ShippingRate)
      modifies this
      ensures State() == UpdateShippingOn(old(State()), cart.items, address, rate)
      ensures |cart.items| > 0 ==> IsReadyForPayment(State())
    {
      isLoading, error := true, None;
      shipping := Some(ShippingInfo(address, rate, [rate]));
      CalculateTotals(cart);
      isLoading := false;
      if |cart.items| > 0 { ReadyAfterShipping(old(State()), cart.items, address, rate); }
    }

    method UpdatePayment(p: PaymentInfo)
      modifies this
      ensures State() == UpdatePaymentOn(old(State()), p)
    {
      payment := Some(p);
    }

    method SetLoading(loading: bool)
      modifies this
      ensures State() == old(State()).(isLoading := loading)
    {
      isLoading := loading;
    }

    method SetError(e: Option<string>)
      modifies this
      ensures State() == old(State()).(error := e)
    {
      error := e;
    }

    /** `reset`, with the intended meaning: every field back to `initialState`. */
    method Reset()
      modifies this
      ensures State() == ResetOn(old(State()))
    {
      Assign(InitialState());
    }

    /** `getTotals`. */
    function GetTotals(): (t: OrderTotals)
      reads this
      ensures t == State().totals
    {
      totals
    }
  }
}
