/**
 * The browser-side wrapper round the payment provider's SDK: which payment methods are
 * attached, tokenising one of them, tearing everything down, and two display helpers.
 * The SDK itself is an oracle: its answers are parameters.
 */
module SquarePayments {
  import opened Wrappers
  import opened JsStrings

  /** `PaymentMethodType`. */
  datatype MethodType = Card | ApplePay | GooglePay | Ach | GiftCard

  function MethodCode(m: MethodType): (s: string)
    ensures s != []
  {
    match m
    case Card => "card"
    case ApplePay => "apple_pay"
    case GooglePay => "google_pay"
    case Ach => "ach"
    case GiftCard => "gift_card"
  }

  const NotInitialized: string := "Square Payments not initialized"
  const TokenizationFailed: string := "Tokenization failed"
  const UnknownThrown: string := "Unknown error"
  const UnknownErrors: string := "An unknown error occurred"

  /** One entry of the SDK's `errors` array. */
  datatype SquareError = SquareError(kind: string, field: Option<string>, message: string)

  /**
   * What `method.tokenize()` does: resolve with a status, maybe a token and maybe errors,
   * or throw (with the message of an `Error`, or something that is not an `Error`).
   */
  datatype TokenizeReply =
    | Tokenized(status: string, token: Option<string>, errors: Option<seq<SquareError>>)
    | TokenizeThrew(errorMessage: Option<string>)

  /** `PaymentResult`. */
  datatype PaymentResult = PaymentResult(
    success: bool, token: Option<string>, error: Option<string>, errors: Option<seq<SquareError>>)

  predicate Truthy(s: Option<string>) {
    s.Some? && s.value != []
  }

  function NotFoundMessage(m: MethodType): string {
    "Payment method " + MethodCode(m) + " not found"
  }

  /** `tokenizePayment`, given whether the method is attached and what the SDK answers. */
  function TokenizeOutcome(registered: bool, m: MethodType, reply: TokenizeReply): (r: PaymentResult)
    // an unattached method fails at once, whatever the SDK would have said
    ensures !registered ==> r == PaymentResult(false, None, Some(NotFoundMessage(m)), None)
    ensures r.success <==> registered && reply.Tokenized? && reply.status == "OK" && Truthy(reply.token)
    ensures r.success ==> r.token == reply.token && r.error.None? && r.errors.None?
    ensures registered && reply.Tokenized? && !r.success ==>
      r == PaymentResult(false, None, Some(TokenizationFailed), reply.errors)
    // a thrown error becomes a failed result, never an exception
    ensures registered && reply.TokenizeThrew? ==>
      r == PaymentResult(false, None, Some(reply.errorMessage.GetOr(UnknownThrown)), None)
  {
    if !registered then PaymentResult(false, None, Some(NotFoundMessage(m)), None)
    else match reply
      case Tokenized(status, token, errors) =>
        if status == "OK" && Truthy(token) then PaymentResult(true, token, None, None)
        else PaymentResult(false, None, Some(TokenizationFailed), errors)
      case TokenizeThrew(message) => PaymentResult(false, None, Some(message.GetOr(UnknownThrown)), None)
  }

  /** `SquarePaymentsManager`: the SDK handle and the map of attached methods (its keys). */
  class SquarePaymentsManager {
    /** `payments !== null`. */
    var initialized: bool
    /** The keys of `activePaymentMethods`. */
    var active: set<MethodType>

    constructor()
      ensures !initialized && active == {}
    {
      initialized := false;
      active := {};
    }

    /** `initialize`: keeps the SDK on success; a failure is re-thrown and changes nothing. */
    method Initialize(sdk: Result<(), string>) returns (r: Result<(), string>)
      modifies this
      ensures r == sdk
      ensures initialized == (old(initialized) || sdk.Success?)
      ensures active == old(active)
    {
      r := sdk;
      if sdk.Success? {
        initialized := true;
      }
    }

    /**
     * `createCardPayment`, `createApplePay` and `createGooglePay`: refused before
     * initialisation; otherwise the SDK creates and attaches the method, or throws.
     */
    method Create(m: MethodType, sdkError: Option<string>) returns (r: Result<(), string>)
      requires m == Card || m == ApplePay || m == GooglePay
      modifies this
      ensures !old(initialized) ==> r == Failure(NotInitialized) && active == old(active)
      ensures old(initialized) && sdkError.Some? ==> r == Failure(sdkError.value) && active == old(active)
      ensures old(initialized) && sdkError.None? ==> r == Success(()) && active == old(active) + {m}
      ensures initialized == old(initialized)
    {
      if !initialized {
        return Failure(NotInitialized);
      }
      if sdkError.Some? {
        return Failure(sdkError.value);
      }
      active := active + {m};
      r := Success(());
    }

    /** `tokenizePayment`; it reads the method map and changes nothing. */
    method TokenizePayment(m: MethodType, reply: TokenizeReply) returns (r: PaymentResult)
      ensures r == TokenizeOutcome(m in active, m, reply)
    {
      if m !in active {
        return PaymentResult(false, None, Some(NotFoundMessage(m)), None);
      }
      match reply {
        case Tokenized(status, token, errors) =>
          if status == "OK" && Truthy(token) {
            r := PaymentResult(true, token, None, None);
          } else {
            r := PaymentResult(false, None, Some(TokenizationFailed), errors);
          }
        case TokenizeThrew(message) =>
          r := PaymentResult(false, None, Some(message.GetOr(UnknownThrown)), None);
      }
    }

    /** `destroy`: the map is cleared and the SDK handle dropped. */
    method Destroy()
      modifies this
      ensures active == {} && !initialized
    {
      active := {};
      initialized := false;
    }

    /** `hasPaymentMethod`. */
    function HasPaymentMethod(m: MethodType): (r: bool)
      reads this
      ensures r <==> m in active
    {
      m in active
    }
  }

  /** After `destroy`, no method is available, none can be created and none tokenises. */
  method TornDownManager(manager: SquarePaymentsManager, m: MethodType, reply: TokenizeReply)
    returns (created: Result<(), string>, token: PaymentResult)
    modifies manager
    ensures created == Failure(NotInitialized)
    ensures token == PaymentResult(false, None, Some(NotFoundMessage(Card)), None)
    ensures !manager.HasPaymentMethod(m)
  {
    manager.Destroy();
    created := manager.Create(Card, None);
    token := manager.TokenizePayment(Card, reply);
  }

  /** One error as displayed: `field: message` when the field is non-empty. */
  function Segment(e: SquareError): (s: string)
    ensures Truthy(e.field) ==> s == e.field.value + ": " + e.message
    ensures !Truthy(e.field) ==> s == e.message
  {
    if Truthy(e.field) then e.field.value + ": " + e.message else e.message
  }

  function Segments(errors: seq<SquareError>): (r: seq<string>)
    ensures |r| == |errors|
    ensures forall k :: 0 <= k < |errors| ==> r[k] == Segment(errors[k])
  {
    seq(|errors|, k requires 0 <= k < |errors| => Segment(errors[k]))
  }

  /** `formatSquareErrors`. */
  function FormatSquareErrors(errors: Option<seq<SquareError>>): (r: string)
    ensures errors.None? || errors.value == [] ==> r == UnknownErrors
    ensures errors.Some? && |errors.value| == 1 ==> r == Segment(errors.value[0])
  {
    if errors.None? || errors.value == [] then UnknownErrors
    else Join(Segments(errors.value), ", ")
  }

  /** No comma in any field or message. */
  predicate CommaFree(errors: seq<SquareError>) {
    forall k :: 0 <= k < |errors| ==>
      ',' !in errors[k].message && (errors[k].field.Some? ==> ',' !in errors[k].field.value)
  }

  /**
   * When no field or message holds a comma, cutting the text at its commas gives back one
   * piece per error, in order, each after a single space but the first.
   */
  lemma OneSegmentPerError(errors: seq<SquareError>)
    requires errors != [] && CommaFree(errors)
    ensures |Split(FormatSquareErrors(Some(errors)), ',')| == |errors|
    ensures Split(FormatSquareErrors(Some(errors)), ',')[0] == Segment(errors[0])
    ensures forall k :: 0 < k < |errors| ==>
      Split(FormatSquareErrors(Some(errors)), ',')[k] == " " + Segment(errors[k])
  {
    var parts := Segments(errors);
    forall k | 0 <= k < |parts| ensures ',' !in parts[k] {
      var e := errors[k];
      if Truthy(e.field) {
        assert parts[k] == e.field.value + ": " + e.message;
        assert forall i :: 0 <= i < |parts[k]| ==> parts[k][i] != ',' by {
          forall i | 0 <= i < |parts[k]| ensures parts[k][i] != ',' {
            if i < |e.field.value| {
              assert parts[k][i] == e.field.value[i];
            } else if i >= |e.field.value| + 2 {
              assert parts[k][i] == e.message[i - |e.field.value| - 2];
            }
          }
        }
      }
    }
    assert ", " == [','] + " ";
    SplitJoinGlued(parts, ',', " ");
  }

  /** The outcome of the amount check shown before tokenising. */
  datatype AmountVerdict = AmountValid | AmountInvalid(error: string)

  const AmountNotPositive: string := "Amount must be greater than 0"
  const AmountTooLarge: string := "Amount is too large"
  const TooManyDecimals: string := "Amount can only have up to 2 decimal places"

  /** `amount * 100` is a whole number, with the amount an exact decimal. */
  predicate WholeCents(amount: real) {
    (amount * 100.0).Floor as real == amount * 100.0
  }

  /** `validatePaymentAmount` of the SDK wrapper, in currency units. */
  function ValidateAmount(amount: real): (r: AmountVerdict)
    ensures amount <= 0.0 ==> r == AmountInvalid(AmountNotPositive)
    ensures amount > 999999.99 ==> r == AmountInvalid(AmountTooLarge)
    ensures r == AmountValid <==> 0.0 < amount <= 999999.99 && WholeCents(amount)
    ensures 0.0 < amount <= 999999.99 && !WholeCents(amount) ==> r == AmountInvalid(TooManyDecimals)
  {
    if amount <= 0.0 then AmountInvalid(AmountNotPositive)
    else if amount > 999999.99 then AmountInvalid(AmountTooLarge)
    else if !WholeCents(amount) then AmountInvalid(TooManyDecimals)
    else AmountValid
  }

  /** Every whole number of cents from one cent to the ceiling is accepted. */
  lemma CentAmountsAccepted(cents: int)
    requires 1 <= cents <= 99999999
    ensures ValidateAmount(cents as real / 100.0) == AmountValid
  {
    assert cents as real / 100.0 * 100.0 == cents as real;
  }
}
