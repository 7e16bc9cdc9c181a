/**
 * Checks applied to payment data beyond the request schemas: per-currency amount bounds,
 * address completeness, string sanitising, the version-4 idempotency-key format, the
 * fraud heuristics and the mapping of provider errors to messages for the shopper.
 */
module PaymentValidation {
  import opened Wrappers
  import opened JsStrings
  import opened JsObjects
  import opened EmailPattern
  import opened ZodRules
  import opened CheckoutTypes

  /** `MIN_AMOUNTS`, in minor units. */
  const MinAmounts: map<string, int> := map["USD" := 100, "MXN" := 2000, "CAD" := 100]
  /** `MAX_AMOUNTS`, in minor units. */
  const MaxAmounts: map<string, int> := map["USD" := 1000000, "MXN" := 20000000, "CAD" := 1000000]

  /** `MIN_AMOUNTS[currency] || 100` for a currency the table owns or lacks. */
  function MinFor(currency: string): (m: int)
    ensures m > 0
    ensures currency !in MinAmounts ==> m == 100
  {
    if currency in MinAmounts then MinAmounts[currency] else 100
  }

  /** `MAX_AMOUNTS[currency] || 1000000` for a currency the table owns or lacks. */
  function MaxFor(currency: string): (m: int)
    ensures m >= MinFor(currency)
    ensures currency !in MaxAmounts ==> m == 1000000
  {
    if currency in MaxAmounts then MaxAmounts[currency] else 1000000
  }

  /** The outcome of the amount check; the message text renders the bound with two decimals. */
  datatype AmountCheck = AmountOk | BelowMinimum(min: int, currency: string) | AboveMaximum(max: int, currency: string)

  /** `validatePaymentAmount` with the tables read by their own keys only. */
  function ValidatePaymentAmount(amount: real, currency: string): (r: AmountCheck)
    ensures r.AmountOk? <==> MinFor(currency) as real <= amount <= MaxFor(currency) as real
    // the minimum is checked first, so an amount below it reports only the minimum
    ensures amount < MinFor(currency) as real ==> r == BelowMinimum(MinFor(currency), currency)
    ensures MinFor(currency) as real <= amount && amount > MaxFor(currency) as real ==>
      r == AboveMaximum(MaxFor(currency), currency)
  {
    var min := MinFor(currency);
    var max := MaxFor(currency);
    if amount < min as real then BelowMinimum(min, currency)
    else if amount > max as real then AboveMaximum(max, currency)
    else AmountOk
  }

  /**
   * `validatePaymentAmount` as written: for a property name every object inherits, such as
   * "constructor", both lookups yield a function, `||` keeps it, and comparing a number
   * with it is false both ways.
   */
  function ValidatePaymentAmountAsWritten(amount: real, currency: string): (r: AmountCheck)
    ensures currency !in ObjectPrototypeKeys ==> r == ValidatePaymentAmount(amount, currency)
    ensures LookupIn(MinAmounts, currency).Inherited? ==> r == AmountOk
  {
    match LookupIn(MinAmounts, currency)
    case Inherited(_) => AmountOk
    case _ => ValidatePaymentAmount(amount, currency)
  }

  /** One cent in the currency "constructor" passes as written and fails the intended check. */
  lemma AmountGuardAcceptsPrototypeName()
    ensures ValidatePaymentAmountAsWritten(1.0, "constructor") == AmountOk
    ensures ValidatePaymentAmount(1.0, "constructor") == BelowMinimum(100, "constructor")
  {
    assert "constructor" !in MinAmounts && "constructor" !in MaxAmounts;
  }

  /** Peso bounds: 20 to 200,000 pesos; other currencies $1 to $10,000. */
  lemma AmountBoundsPerCurrency(amount: real)
    ensures ValidatePaymentAmount(amount, "MXN").AmountOk? <==> 2000.0 <= amount <= 20000000.0
    ensures ValidatePaymentAmount(amount, "USD").AmountOk? <==> 100.0 <= amount <= 1000000.0
    ensures ValidatePaymentAmount(amount, "CAD").AmountOk? <==> 100.0 <= amount <= 1000000.0
    ensures ValidatePaymentAmount(amount, "EUR").AmountOk? <==> 100.0 <= amount <= 1000000.0
  {
    assert "EUR" !in MinAmounts && "EUR" !in MaxAmounts;
  }

  /** `Partial<ShippingAddress>`: the fields the completeness check reads, each possibly missing. */
  datatype PartialAddress = PartialAddress(
    firstName: Option<string>, lastName: Option<string>, email: Option<string>, address1: Option<string>,
    city: Option<string>, state: Option<string>, postalCode: Option<string>, country: Option<string>)

  /** `!field?.trim()`: missing, or nothing but white space. */
  predicate Blank(field: Option<string>) {
    field.None? || Trim(field.value) == []
  }

  /** The messages of `validateShippingAddress`, in the order the fields are checked. */
  const AddressMessages: seq<string> := [
    "First name is required", "Last name is required", "Valid email is required", "Address is required",
    "City is required", "State/Province is required", "Postal code is required", "Valid country is required"]

  /** Which of the eight checks fail, in the same order. */
  function AddressFailures(a: PartialAddress): seq<bool> {
    [Blank(a.firstName), Blank(a.lastName), Blank(a.email) || !IsSimpleEmail(a.email.value), Blank(a.address1),
     Blank(a.city), Blank(a.state), Blank(a.postalCode),
     !(a.country.Some? && a.country.value in ["MX", "US", "CA"])]
  }

  /** The messages whose flag is set, in their order. */
  function Select(messages: seq<string>, failing: seq<bool>): (r: seq<string>)
    requires |messages| == |failing|
    ensures |r| <= |messages|
    ensures forall m :: m in r ==> m in messages
    ensures r == [] <==> forall k :: 0 <= k < |failing| ==> !failing[k]
    ensures forall k :: 0 <= k < |messages| && failing[k] ==> messages[k] in r
  {
    if messages == [] then []
    else (if failing[0] then [messages[0]] else []) + Select(messages[1..], failing[1..])
  }

  /** Distinct messages are selected exactly when their check fails. */
  lemma {:induction false} SelectExact(messages: seq<string>, failing: seq<bool>, k: int)
    requires |messages| == |failing| && 0 <= k < |messages|
    requires forall i, j :: 0 <= i < j < |messages| ==> messages[i] != messages[j]
    ensures messages[k] in Select(messages, failing) <==> failing[k]
    decreases |messages|
  {
    if k > 0 {
      SelectExact(messages[1..], failing[1..], k - 1);
      assert messages[1..][k - 1] == messages[k];
      assert messages[0] != messages[k];
    } else if !failing[0] {
      assert messages[0] !in messages[1..];
      assert messages[0] !in Select(messages[1..], failing[1..]);
    }
  }

  /** Selection works message by message: it commutes with concatenation. */
  lemma {:induction false} SelectAppend(m1: seq<string>, f1: seq<bool>, m2: seq<string>, f2: seq<bool>)
    requires |m1| == |f1| && |m2| == |f2|
    ensures Select(m1 + m2, f1 + f2) == Select(m1, f1) + Select(m2, f2)
    decreases |m1|
  {
    if m1 == [] {
      assert m1 + m2 == m2 && f1 + f2 == f2;
    } else {
      assert (m1 + m2)[0] == m1[0] && (f1 + f2)[0] == f1[0];
      assert (m1 + m2)[1..] == m1[1..] + m2 && (f1 + f2)[1..] == f1[1..] + f2;
      SelectAppend(m1[1..], f1[1..], m2, f2);
    }
  }

  /** Two failing checks report their messages in the order of the checks. */
  lemma SelectKeepsOrder(messages: seq<string>, failing: seq<bool>, i: int, j: int)
    requires |messages| == |failing| && 0 <= i < j < |messages| && failing[i] && failing[j]
    ensures exists p, q :: 0 <= p < q < |Select(messages, failing)|
              && Select(messages, failing)[p] == messages[i] && Select(messages, failing)[q] == messages[j]
  {
    var m1, f1, m2, f2 := messages[..j], failing[..j], messages[j..], failing[j..];
    assert m1 + m2 == messages && f1 + f2 == failing;
    SelectAppend(m1, f1, m2, f2);
    var a := Select(m1, f1);
    assert m1[i] == messages[i] && f1[i];
    var p :| 0 <= p < |a| && a[p] == messages[i];
    assert m2[0] == messages[j] && f2[0];
    assert Select(m2, f2)[0] == messages[j];
    var r := Select(messages, failing);
    assert r[p] == messages[i] && r[|a|] == messages[j];
  }

  /** With distinct messages, each failing check contributes its message once and a passing one never. */
  lemma {:induction false} SelectOnce(messages: seq<string>, failing: seq<bool>, k: int)
    requires |messages| == |failing| && 0 <= k < |messages|
    requires forall i, j :: 0 <= i < j < |messages| ==> messages[i] != messages[j]
    ensures multiset(Select(messages, failing))[messages[k]] == if failing[k] then 1 else 0
    decreases |messages|
  {
    var rest := Select(messages[1..], failing[1..]);
    assert Select(messages, failing) == (if failing[0] then [messages[0]] else []) + rest;
    if k == 0 {
      assert messages[0] !in messages[1..];
      assert messages[0] !in rest;
    } else {
      SelectOnce(messages[1..], failing[1..], k - 1);
      assert messages[1..][k - 1] == messages[k];
      assert messages[0] != messages[k];
    }
  }

  datatype AddressCheck = AddressCheck(valid: bool, errors: seq<string>)

  /** `validateShippingAddress`. */
  function ValidateShippingAddress(a: PartialAddress): (r: AddressCheck)
    ensures r.valid <==> r.errors == []
    ensures r.valid <==> forall k :: 0 <= k < 8 ==> !AddressFailures(a)[k]
    ensures |r.errors| <= 8
  {
    var errors := Select(AddressMessages, AddressFailures(a));
    AddressCheck(errors == [], errors)
  }

  /** No two fields share a message. */
  lemma AddressMessagesDistinct()
    ensures forall i, j :: 0 <= i < j < |AddressMessages| ==> AddressMessages[i] != AddressMessages[j]
  {
  }

  /** Each field contributes its message exactly when its check fails. */
  lemma AddressMessagePerField(a: PartialAddress, k: int)
    requires 0 <= k < 8
    ensures AddressMessages[k] in ValidateShippingAddress(a).errors <==> AddressFailures(a)[k]
  {
    var messages, failing := AddressMessages, AddressFailures(a);
    AddressMessagesDistinct();
    SelectExact(messages, failing, k);
    assert ValidateShippingAddress(a).errors == Select(messages, failing);
  }

  /** A failing field's message appears exactly once, and a passing field's not at all. */
  lemma AddressMessageOnce(a: PartialAddress, k: int)
    requires 0 <= k < 8
    ensures multiset(ValidateShippingAddress(a).errors)[AddressMessages[k]] == if AddressFailures(a)[k] then 1 else 0
  {
    AddressMessagesDistinct();
    SelectOnce(AddressMessages, AddressFailures(a), k);
  }

  /** The messages come in the order the fields are checked. */
  lemma AddressErrorsInFieldOrder(a: PartialAddress, i: int, j: int)
    requires 0 <= i < j < 8 && AddressFailures(a)[i] && AddressFailures(a)[j]
    ensures exists p, q :: 0 <= p < q < |ValidateShippingAddress(a).errors|
              && ValidateShippingAddress(a).errors[p] == AddressMessages[i]
              && ValidateShippingAddress(a).errors[q] == AddressMessages[j]
  {
    var failing := AddressFailures(a);
    assert ValidateShippingAddress(a).errors == Select(AddressMessages, failing);
    SelectKeepsOrder(AddressMessages, failing, i, j);
  }

  /** A first name of spaces passes the request schema's length bound but not this check. */
  lemma SpacesAreBlank(a: PartialAddress)
    requires a.firstName == Some(" ")
    ensures "First name is required" in ValidateShippingAddress(a).errors
    ensures LengthIn(a.firstName.value, 1, 50)
  {
    assert Trim(" ") == [];
    AddressMessagePerField(a, 0);
  }

  /** `sanitizeString`: trimmed, cut to `maxLength`, angle brackets removed. */
  function SanitizeString(input: string, maxLength: int := 200): (r: string)
    ensures maxLength >= 0 ==> |r| <= maxLength
    ensures '<' !in r && '>' !in r
    ensures |r| <= |input|
    ensures forall c :: c != '<' && c != '>' ==> multiset(r)[c] == multiset(SlicePrefix(Trim(input), maxLength))[c]
  {
    RemoveChars(SlicePrefix(Trim(input), maxLength), {'<', '>'})
  }

  /** Short, already trimmed text without angle brackets comes through unchanged. */
  lemma SanitizeKeepsPlainText(input: string, maxLength: int)
    requires Trim(input) == input && '<' !in input && '>' !in input && |input| <= maxLength
    ensures SanitizeString(input, maxLength) == input
  {
    assert SlicePrefix(Trim(input), maxLength) == input;
    RemoveCharsAbsent(input, {'<', '>'});
    assert SanitizeString(input, maxLength) == RemoveChars(input, {'<', '>'});
  }

  /**
   * Split the trimmed, cut input anywhere: the result is the first part without its angle
   * brackets followed by the second part without its own, so every other character is kept
   * in its order (with `RemoveCharsOne` for the single characters).
   */
  lemma SanitizeKeepsOrder(input: string, maxLength: int, a: string, b: string)
    requires SlicePrefix(Trim(input), maxLength) == a + b
    ensures SanitizeString(input, maxLength) == RemoveChars(a, {'<', '>'}) + RemoveChars(b, {'<', '>'})
  {
    RemoveCharsAppend(a, b, {'<', '>'});
  }

  /**
   * Outer white space goes and inner white space stays: " John Smith " gives "John Smith".
   * The text between the padding must start and end with a visible character.
   */
  lemma SanitizeStripsPadding(pre: string, body: string, post: string, maxLength: int)
    requires forall i :: 0 <= i < |pre| ==> IsSpace(pre[i])
    requires forall i :: 0 <= i < |post| ==> IsSpace(post[i])
    requires body != [] && !IsSpace(body[0]) && !IsSpace(body[|body| - 1])
    requires '<' !in body && '>' !in body && |body| <= maxLength
    ensures SanitizeString(pre + body + post, maxLength) == body
  {
    var input := pre + body + post;
    TrimPadded(pre, body, post);
    assert SlicePrefix(Trim(input), maxLength) == body;
    RemoveCharsAbsent(body, {'<', '>'});
    assert SanitizeString(input, maxLength) == RemoveChars(body, {'<', '>'});
  }

  /** The brackets of a tag go and the text between them stays: "a<b>" gives "ab". */
  lemma SanitizeDropsTagBrackets(a: char, b: char)
    requires !IsSpace(a) && a != '<' && a != '>' && b != '<' && b != '>'
    ensures SanitizeString([a, '<', b, '>']) == [a, b]
  {
    var t := [a, '<', b, '>'];
    TrimPadded([], t, []);
    assert [] + t + [] == t;
    assert SlicePrefix(Trim(t), 200) == t;
    RemoveTagBrackets(a, b);
    assert SanitizeString(t) == RemoveChars(t, {'<', '>'});
  }

  lemma RemoveTagBrackets(a: char, b: char)
    requires a != '<' && a != '>' && b != '<' && b != '>'
    ensures RemoveChars([a, '<', b, '>'], {'<', '>'}) == [a, b]
  {
    var brackets := {'<', '>'};
    var t := [a, '<', b, '>'];
    assert t[1..] == ['<', b, '>'] && t[1..][1..] == [b, '>'] && t[1..][1..][1..] == ['>'];
    assert RemoveChars(['>'], brackets) == [] by {
      RemoveCharsOne('>', brackets);
    }
    assert RemoveChars([b, '>'], brackets) == [b];
    assert RemoveChars(['<', b, '>'], brackets) == [b];
  }

  /** Characters allowed in the variant position (section 4.1.1 of RFC 4122). */
  predicate IsVariantDigit(c: char) {
    c == '8' || c == '9' || c == 'a' || c == 'b' || c == 'A' || c == 'B'
  }

  /**
   * `validateIdempotencyKey`: the textual layout of a UUID with version nibble 4 (section
   * 4.1.3 of RFC 4122) and the RFC 4122 variant, either case.
   */
  predicate ValidateIdempotencyKey(key: string) {
    UuidLayout(key) && key[14] == '4' && IsVariantDigit(key[19])
  }

  /** A key this check accepts is one the payment endpoint's schema accepts. */
  lemma ValidKeyPassesSchema(key: string)
    requires ValidateIdempotencyKey(key)
    ensures ZodUuid(key)
  {
  }

  /** The schema alone also admits other versions: a version-1 key fails this check. */
  lemma SchemaAdmitsOtherVersions(key: string)
    requires ZodUuid(key) && key[14] == '1'
    ensures !ValidateIdempotencyKey(key)
  {
  }

  /** `highAmounts`. */
  const HighAmounts: map<string, int> := map["USD" := 500000, "MXN" := 10000000, "CAD" := 500000]
  const DisposableDomains: seq<string> := ["tempmail.com", "throwaway.email", "guerrillamail.com", "10minutemail.com"]
  /** `expectedCurrency`. */
  const ExpectedCurrency: map<string, string> := map["MX" := "MXN", "US" := "USD", "CA" := "CAD"]

  const HighAmountReason: string := "Unusually high payment amount"
  const DisposableReason: string := "Disposable email address detected"
  const MismatchReason: string := "Currency doesn't match shipping country"

  /** `amount > (highAmounts[currency] || 500000)`; an inherited member compares false. */
  predicate IsHighAmount(amount: real, currency: string) {
    match LookupIn(HighAmounts, currency)
    case Own(limit) => amount > limit as real
    case Inherited(_) => false
    case Absent => amount > 500000.0
  }

  /** `email.split("@")[1]?.toLowerCase()`. */
  function EmailDomain(email: string): (d: Option<string>)
    ensures d.Some? <==> |Split(email, '@')| >= 2
  {
    var parts := Split(email, '@');
    if |parts| >= 2 then Some(ToLower(parts[1])) else None
  }

  predicate IsDisposable(email: string) {
    var d := EmailDomain(email);
    d.Some? && d.value != [] && d.value in DisposableDomains
  }

  /** `expectedCurrency[country] && expectedCurrency[country] !== currency`. */
  predicate IsCurrencyMismatch(country: string, currency: string) {
    match LookupIn(ExpectedCurrency, country)
    case Own(expected) => expected != currency
    case Inherited(_) => true
    case Absent => false
  }

  datatype FraudCheck = FraudCheck(suspicious: bool, reasons: seq<string>)

  /** The position of a reason's check: amount 0, e-mail 1, currency 2. */
  function CheckOf(reason: string): nat {
    if reason == HighAmountReason then 0 else if reason == DisposableReason then 1 else 2
  }

  /** Each reason comes from a later check than the one before it. */
  predicate InCheckOrder(reasons: seq<string>) {
    forall i, j :: 0 <= i < j < |reasons| ==> CheckOf(reasons[i]) < CheckOf(reasons[j])
  }

  /** `detectSuspiciousPayment`: the reasons in the order they are checked. */
  function DetectSuspiciousPayment(amount: real, currency: string, email: string, country: string): (r: FraudCheck)
    ensures r.suspicious <==> r.reasons != []
    ensures HighAmountReason in r.reasons <==> IsHighAmount(amount, currency)
    ensures DisposableReason in r.reasons <==> IsDisposable(email)
    ensures MismatchReason in r.reasons <==> IsCurrencyMismatch(country, currency)
    ensures |r.reasons| == (if IsHighAmount(amount, currency) then 1 else 0) + (if IsDisposable(email) then 1 else 0)
                           + (if IsCurrencyMismatch(country, currency) then 1 else 0)
    ensures InCheckOrder(r.reasons)
  {
    var reasons := (if IsHighAmount(amount, currency) then [HighAmountReason] else [])
                   + (if IsDisposable(email) then [DisposableReason] else [])
                   + (if IsCurrencyMismatch(country, currency) then [MismatchReason] else []);
    FraudCheck(reasons != [], reasons)
  }

  /** A supported country paying in its own currency is never flagged for a mismatch. */
  lemma OwnCurrencyNeverMismatched(c: Country, amount: real, email: string)
    ensures MismatchReason !in DetectSuspiciousPayment(amount, CountryCurrency(c), email, CountryCode(c)).reasons
    ensures MismatchReason in DetectSuspiciousPayment(amount, "EUR", email, CountryCode(c)).reasons
  {
  }

  /** A country the table lacks is flagged only when it happens to be an inherited property name. */
  lemma UnknownCountryMismatch(amount: real, currency: string, email: string)
    ensures MismatchReason !in DetectSuspiciousPayment(amount, currency, email, "FR").reasons
    ensures MismatchReason in DetectSuspiciousPayment(amount, currency, email, "toString").reasons
  {
    assert "FR" !in ExpectedCurrency && "FR" !in ObjectPrototypeKeys;
    assert "toString" !in ExpectedCurrency;
  }

  /** The values `formatPaymentError` may be handed. */
  datatype ErrorValue = StringError(text: string) | ErrorObject(message: string) | OtherValue

  const InsufficientFundsText: string := "Your card has insufficient funds. Please try a different payment method."
  const DeclinedText: string := "Your card was declined. Please check your card details or try a different card."
  const ExpiredText: string := "Your card has expired. Please use a different payment method."
  const InvalidCardText: string := "Invalid card information. Please check your details and try again."
  const NetworkText: string := "Network error. Please check your connection and try again."
  const UnexpectedText: string := "An unexpected error occurred. Please try again."

  /** The keywords looked for in the lower-cased message, each with its message, in order. */
  const ErrorKeywords: seq<(string, string)> := [
    ("insufficient funds", InsufficientFundsText), ("card declined", DeclinedText), ("expired", ExpiredText),
    ("invalid", InvalidCardText), ("network", NetworkText)]

  /** The message of the first keyword in `keywords` that `lower` contains, else `fallback`. */
  function FirstKeywordHit(lower: string, keywords: seq<(string, string)>, fallback: string): (r: string)
    ensures r == fallback || exists k :: 0 <= k < |keywords| && r == keywords[k].1
    ensures (forall k :: 0 <= k < |keywords| ==> !Contains(lower, keywords[k].0)) ==> r == fallback
    ensures forall k :: (0 <= k < |keywords| && Contains(lower, keywords[k].0)
                         && (forall j :: 0 <= j < k ==> !Contains(lower, keywords[j].0))) ==> r == keywords[k].1
  {
    if keywords == [] then fallback
    else if Contains(lower, keywords[0].0) then keywords[0].1
    else
      var r := FirstKeywordHit(lower, keywords[1..], fallback);
      assert forall k :: 1 <= k < |keywords| ==> keywords[1..][k - 1] == keywords[k];
      r
  }

  /** `formatPaymentError`. */
  function FormatPaymentError(error: ErrorValue): (r: string)
    ensures error.StringError? ==> r == error.text
    ensures error.OtherValue? ==> r == UnexpectedText
    ensures error.ErrorObject? ==> r == FirstKeywordHit(ToLower(error.message), ErrorKeywords, error.message)
  {
    match error
    case StringError(text) => text
    case ErrorObject(message) => FirstKeywordHit(ToLower(message), ErrorKeywords, message)
    case OtherValue => UnexpectedText
  }

  /** The keywords are tried in a fixed order: a declined card wins over an expired one. */
  lemma DeclinedBeforeExpired(message: string)
    requires !Contains(ToLower(message), "insufficient funds")
    requires Contains(ToLower(message), "card declined") && Contains(ToLower(message), "expired")
    ensures FormatPaymentError(ErrorObject(message)) == DeclinedText
  {
    var kw := ErrorKeywords;
    assert kw[0].0 == "insufficient funds" && kw[1].0 == "card declined" && kw[1].1 == DeclinedText;
  }

  /** Once some keyword matches, the fallback is not used. */
  lemma {:induction false} FallbackUnused(lower: string, keywords: seq<(string, string)>, f1: string, f2: string)
    requires exists k :: 0 <= k < |keywords| && Contains(lower, keywords[k].0)
    ensures FirstKeywordHit(lower, keywords, f1) == FirstKeywordHit(lower, keywords, f2)
    decreases |keywords|
  {
    if !Contains(lower, keywords[0].0) {
      var k :| 0 <= k < |keywords| && Contains(lower, keywords[k].0);
      assert keywords[1..][k - 1] == keywords[k];
      FallbackUnused(lower, keywords[1..], f1, f2);
    }
  }

  /** Keywords in an ASCII message are matched regardless of letter case. */
  lemma KeywordsIgnoreCase(message: string)
    requires forall i :: 0 <= i < |message| ==> message[i] < '\U{80}'
    requires exists k :: 0 <= k < |ErrorKeywords| && Contains(ToLower(message), ErrorKeywords[k].0)
    ensures FormatPaymentError(ErrorObject(ToUpper(message))) == FormatPaymentError(ErrorObject(message))
  {
    ToLowerOfUpper(message);
    FallbackUnused(ToLower(message), ErrorKeywords, ToUpper(message), message);
  }

  /** A message with none of the keywords is shown as it is. */
  lemma UnmatchedMessagePassesThrough(message: string)
    requires forall k :: 0 <= k < |ErrorKeywords| ==> !Contains(ToLower(message), ErrorKeywords[k].0)
    ensures FormatPaymentError(ErrorObject(message)) == message
  {
  }
}
