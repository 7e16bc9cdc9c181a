/**
 * Cart values and the guards that keep them safe: id and price validation,
 * quantity clamping to 1..10, and the structural check applied to untrusted
 * (persisted) cart items.
 */
module CartTypes {
  import opened JsStrings

  /** `MAX_QUANTITY_PER_ITEM`. */
  const MaxQuantityPerItem: int := 10
  /** `MIN_QUANTITY_PER_ITEM`. */
  const MinQuantityPerItem: int := 1

  /** A JavaScript number: a finite value or one of the three non-finite ones. */
  datatype JsNumber = Finite(value: real) | NaN | Infinity | NegInfinity

  /** A parsed JSON value, as it comes back from storage (untrusted). */
  datatype JsValue =
    | JUndefined
    | JNull
    | JBool(b: bool)
    | JNum(n: JsNumber)
    | JStr(s: string)
    | JArr(elems: seq<JsValue>)
    | JObj(fields: map<string, JsValue>)

  /** Property access `obj[key]`: a missing key reads as `undefined`. */
  function Field(fields: map<string, JsValue>, key: string): JsValue {
    if key in fields then fields[key] else JUndefined
  }

  /** `Product`. */
  datatype Product = Product(
    id: string,
    title: string,
    variant: string,
    description: string,
    price: string,
    priceValue: JsNumber,
    image: string)

  /** `CartItem`: a product whose price has been checked finite, with a quantity. */
  datatype CartItem = CartItem(
    id: string,
    title: string,
    variant: string,
    description: string,
    price: string,
    priceValue: real,
    image: string,
    quantity: int)

  /** `Math.round`: halves round towards positive infinity. */
  function Round(x: real): (n: int)
    ensures n as real - 0.5 <= x < n as real + 0.5
  {
    (x + 0.5).Floor
  }

  /** `sanitizeQuantity`. */
  function SanitizeQuantity(q: JsNumber): (r: int)
    ensures MinQuantityPerItem <= r <= MaxQuantityPerItem
    ensures !q.Finite? ==> r == MinQuantityPerItem
    ensures q.Finite? ==> r == Clamp(Round(q.value), MinQuantityPerItem, MaxQuantityPerItem)
  {
    match q
    case Finite(v) => Max(MinQuantityPerItem, Min(MaxQuantityPerItem, Round(v)))
    case _ => MinQuantityPerItem
  }

  function Min(a: int, b: int): int { if a <= b then a else b }
  function Max(a: int, b: int): int { if a >= b then a else b }
  function Clamp(x: int, lo: int, hi: int): int { if x < lo then lo else if x > hi then hi else x }

  /** On whole numbers already in range, clamping changes nothing. */
  lemma SanitizeQuantityIdentity(n: int)
    requires MinQuantityPerItem <= n <= MaxQuantityPerItem
    ensures SanitizeQuantity(Finite(n as real)) == n
  {
    assert Round(n as real) == n;
  }

  /** On any whole number, sanitising is clamping to 1..10. */
  lemma SanitizeWhole(n: int)
    ensures SanitizeQuantity(Finite(n as real)) == Clamp(n, MinQuantityPerItem, MaxQuantityPerItem)
  {
    assert Round(n as real) == n;
  }

  /** `Math.abs`. */
  function Abs(x: real): (r: real)
    ensures r >= 0.0 && (r == x || r == -x)
  {
    if x < 0.0 then -x else x
  }

  /** Sanitising twice is sanitising once. */
  lemma SanitizeQuantityIdempotent(q: JsNumber)
    ensures SanitizeQuantity(Finite(SanitizeQuantity(q) as real)) == SanitizeQuantity(q)
  {
    SanitizeQuantityIdentity(SanitizeQuantity(q));
  }

  /** A character of `/^[a-zA-Z0-9_-]+$/`. */
  predicate IsSafeIdChar(c: char) {
    IsAsciiAlnum(c) || c == '_' || c == '-'
  }

  /** `isValidProductId`. */
  predicate IsValidProductId(id: string) {
    id != [] && (forall i :: 0 <= i < |id| ==> IsSafeIdChar(id[i])) && |id| <= 100
  }

  /** `isValidPrice`. */
  predicate IsValidPrice(p: JsNumber) {
    p.Finite? && p.value >= 0.0
  }

  /** A valid id has no white space, so trimming it is the identity. */
  lemma ValidIdIsTrimmed(id: string)
    requires IsValidProductId(id)
    ensures Trim(id) == id
  {
    assert HasNoSpace(id);
    TrimOfNoSpace(id);
  }

  predicate IsStringAtMost(v: JsValue, n: int) {
    v.JStr? && |v.s| <= n
  }

  /** `isValidCartItem` on an untrusted value. */
  predicate IsValidCartItem(item: JsValue) {
    item.JObj? &&
    var o := item.fields;
    Field(o, "id").JStr? && IsValidProductId(Field(o, "id").s)
    && IsStringAtMost(Field(o, "title"), 200)
    && IsStringAtMost(Field(o, "variant"), 100)
    && IsStringAtMost(Field(o, "description"), 500)
    && IsStringAtMost(Field(o, "price"), 50)
    && Field(o, "priceValue").JNum? && IsValidPrice(Field(o, "priceValue").n)
    && IsStringAtMost(Field(o, "image"), 500)
    && Field(o, "quantity").JNum? && Field(o, "quantity").n.Finite?
    && 1.0 <= Field(o, "quantity").n.value <= 10.0
  }

  /**
   * What every item in the cart satisfies: a valid id, the structural bounds of
   * `isValidCartItem` on the text fields, a non-negative price and a whole quantity in 1..10.
   */
  predicate ItemOk(it: CartItem) {
    IsValidProductId(it.id)
    && |it.title| <= 200 && |it.variant| <= 100 && |it.description| <= 500
    && |it.price| <= 50 && |it.image| <= 500
    && it.priceValue >= 0.0
    && MinQuantityPerItem <= it.quantity <= MaxQuantityPerItem
  }
}
