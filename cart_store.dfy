/**
 * The persisted shopping cart: product validation on the way in, the add, remove and
 * update operations, validation of the state read back from storage, and the derived
 * selectors. Each operation is a function on the item list; the `Cart` class holds the
 * store's state and applies them.
 */
module CartStore {
  import opened Wrappers
  import opened JsStrings
  import opened CartTypes

  /** `CART_STORAGE_KEY`. */
  const CartStorageKey: string := "sherry-berry-cart"

  predicate AllOk(items: seq<CartItem>) {
    forall i :: 0 <= i < |items| ==> ItemOk(items[i])
  }

  /** No product id appears twice. */
  predicate UniqueIds(items: seq<CartItem>) {
    forall i, j :: 0 <= i < j < |items| ==> items[i].id != items[j].id
  }

  /** The invariant the add, remove and update operations keep. */
  predicate CartOk(items: seq<CartItem>) {
    AllOk(items) && UniqueIds(items)
  }

  // ---------------------------------------------------------------- selectors

  /** `items.find(item => item.id === id)`: the first item with that id. */
  function FindById(items: seq<CartItem>, id: string): (r: Option<CartItem>)
    ensures r.None? <==> forall i :: 0 <= i < |items| ==> items[i].id != id
    ensures r.Some? ==> exists i :: 0 <= i < |items| && items[i] == r.value && items[i].id == id
                                    && forall j :: 0 <= j < i ==> items[j].id != id
  {
    if items == [] then None
    else if items[0].id == id then Some(items[0])
    else
      var r := FindById(items[1..], id);
      assert r.Some? ==> exists i :: 0 <= i < |items| - 1 && items[1..][i] == r.value && items[1..][i].id == id
                                     && forall j :: 0 <= j < i ==> items[1..][j].id != id;
      if r.Some? then
        var i :| 0 <= i < |items| - 1 && items[1..][i] == r.value && items[1..][i].id == id
                 && forall j :: 0 <= j < i ==> items[1..][j].id != id;
        assert forall j :: 0 <= j < i + 1 ==> items[j].id != id by {
          forall j | 0 <= j < i + 1 ensures items[j].id != id {
            if j > 0 { assert items[j] == items[1..][j - 1]; }
          }
        }
        assert items[i + 1] == r.value;
        r
      else
        assert forall i :: 0 < i < |items| ==> items[i] == items[1..][i - 1];
        r
  }

  /** `cartSelectors.isInCart`. */
  function IsInCart(items: seq<CartItem>, id: string): (b: bool)
    ensures b <==> exists i :: 0 <= i < |items| && items[i].id == id
  {
    FindById(items, id).Some?
  }

  /** `cartSelectors.getItemQuantity`: the quantity of the first item with that id, 0 if none. */
  function GetItemQuantity(items: seq<CartItem>, id: string): (q: int)
    ensures !IsInCart(items, id) ==> q == 0
    ensures AllOk(items) ==> (q > 0 <==> IsInCart(items, id)) && 0 <= q <= MaxQuantityPerItem
    ensures forall i :: 0 <= i < |items| && items[i].id == id && (forall j :: 0 <= j < i ==> items[j].id != id)
                        ==> q == items[i].quantity
  {
    match FindById(items, id)
    case Some(it) => it.quantity
    case None => 0
  }

  /** `cartSelectors.getTotalItems`: the sum of the quantities. */
  function GetTotalItems(items: seq<CartItem>): (n: int)
    ensures AllOk(items) ==> |items| * MinQuantityPerItem <= n <= |items| * MaxQuantityPerItem
  {
    if items == [] then 0
    else
      assert AllOk(items) ==> AllOk(items[1..]);
      items[0].quantity + GetTotalItems(items[1..])
  }

  /** `cartSelectors.getTotalPrice`: the sum of price times quantity (exact arithmetic). */
  function GetTotalPrice(items: seq<CartItem>): (t: real)
    ensures AllOk(items) ==> t >= 0.0
    ensures AllOk(items) && t == 0.0 ==> forall i :: 0 <= i < |items| ==> items[i].priceValue == 0.0
  {
    if items == [] then 0.0
    else
      assert AllOk(items) ==> AllOk(items[1..]);
      var rest := GetTotalPrice(items[1..]);
      assert forall i :: 0 < i < |items| ==> items[i] == items[1..][i - 1];
      assert ItemOk(items[0]) ==> items[0].priceValue * items[0].quantity as real >= items[0].priceValue by {
        if ItemOk(items[0]) {
          LineAtLeastPrice(items[0].priceValue, items[0].quantity);
        }
      }
      items[0].priceValue * items[0].quantity as real + rest
  }

  /** A line costs at least its unit price, since it holds at least one unit. */
  lemma LineAtLeastPrice(price: real, quantity: int)
    requires price >= 0.0 && quantity >= 1
    ensures price * quantity as real >= price
  {
    assert price * quantity as real - price == price * (quantity - 1) as real;
  }

  lemma {:induction false} TotalItemsAppend(a: seq<CartItem>, b: seq<CartItem>)
    ensures GetTotalItems(a + b) == GetTotalItems(a) + GetTotalItems(b)
    decreases |a|
  {
    if a == [] {
      assert a + b == b;
    } else {
      assert (a + b)[1..] == a[1..] + b;
      TotalItemsAppend(a[1..], b);
    }
  }

  lemma {:induction false} TotalPriceAppend(a: seq<CartItem>, b: seq<CartItem>)
    ensures GetTotalPrice(a + b) == GetTotalPrice(a) + GetTotalPrice(b)
    decreases |a|
  {
    if a == [] {
      assert a + b == b;
    } else {
      assert (a + b)[1..] == a[1..] + b;
      TotalPriceAppend(a[1..], b);
    }
  }

  // ------------------------------------------------------------------ products

  /** `validateProduct`: rejects a bad id or price, cuts and trims the text fields. */
  function ValidateProduct(p: Product): (r: Option<Product>)
    ensures r.Some? <==> IsValidProductId(p.id) && IsValidPrice(p.priceValue)
    ensures r.Some? ==> r.value.id == p.id && r.value.priceValue == p.priceValue
    ensures r.Some? ==> |r.value.title| <= 200 && |r.value.variant| <= 100 && |r.value.description| <= 500
                        && |r.value.price| <= 50 && |r.value.image| <= 500
    ensures r.Some? ==> IsTrimOf(r.value.title, p.title[..Min(|p.title|, 200)])
                        && IsTrimOf(r.value.variant, p.variant[..Min(|p.variant|, 100)])
                        && IsTrimOf(r.value.description, p.description[..Min(|p.description|, 500)])
                        && IsTrimOf(r.value.price, p.price[..Min(|p.price|, 50)])
                        && IsTrimOf(r.value.image, p.image[..Min(|p.image|, 500)])
  {
    if !IsValidProductId(p.id) then None
    else if !IsValidPrice(p.priceValue) then None
    else
      ValidIdIsTrimmed(p.id);
      assert SlicePrefix(p.title, 200) == p.title[..Min(|p.title|, 200)];
      assert SlicePrefix(p.variant, 100) == p.variant[..Min(|p.variant|, 100)];
      assert SlicePrefix(p.description, 500) == p.description[..Min(|p.description|, 500)];
      assert SlicePrefix(p.price, 50) == p.price[..Min(|p.price|, 50)];
      assert SlicePrefix(p.image, 500) == p.image[..Min(|p.image|, 500)];
      Some(Product(
        Trim(p.id),
        Trim(SlicePrefix(p.title, 200)),
        Trim(SlicePrefix(p.variant, 100)),
        Trim(SlicePrefix(p.description, 500)),
        Trim(SlicePrefix(p.price, 50)),
        Finite(Abs(p.priceValue.value)),
        Trim(SlicePrefix(p.image, 500))))
  }

  lemma TrimIdempotent(s: string)
    ensures Trim(Trim(s)) == Trim(s)
  {
    var r := Trim(s);
    if r != [] {
      assert TrimStart(r) == r;
      assert TrimEnd(r) == r;
    }
  }

  lemma CutTrimIdempotent(s: string, n: nat)
    ensures Trim(SlicePrefix(Trim(SlicePrefix(s, n)), n)) == Trim(SlicePrefix(s, n))
  {
    var t := Trim(SlicePrefix(s, n));
    assert SlicePrefix(t, n) == t;
    TrimIdempotent(SlicePrefix(s, n));
  }

  /** Validating an already validated product changes nothing. */
  lemma ValidateProductIdempotent(p: Product)
    requires ValidateProduct(p).Some?
    ensures ValidateProduct(ValidateProduct(p).value) == ValidateProduct(p)
  {
    var v := ValidateProduct(p).value;
    ValidIdIsTrimmed(p.id);
    CutTrimIdempotent(p.title, 200);
    CutTrimIdempotent(p.variant, 100);
    CutTrimIdempotent(p.description, 500);
    CutTrimIdempotent(p.price, 50);
    CutTrimIdempotent(p.image, 500);
  }

  /** A text field that already fits its limit and has no surrounding white space is kept as it is. */
  lemma TrimmedFieldKept(s: string, n: nat)
    requires |s| <= n && (s == [] || (!IsSpace(s[0]) && !IsSpace(s[|s| - 1])))
    ensures Trim(SlicePrefix(s, n)) == s
  {
    if s != [] {
      TrimPadded([], s, []);
      assert [] + s + [] == s;
    }
  }

  /** A product whose text fields are already within their limits and trimmed comes through unchanged. */
  lemma CleanProductKept(p: Product)
    requires IsValidProductId(p.id) && IsValidPrice(p.priceValue)
    requires |p.title| <= 200 && |p.variant| <= 100 && |p.description| <= 500 && |p.price| <= 50 && |p.image| <= 500
    requires forall f :: f in [p.title, p.variant, p.description, p.price, p.image] ==>
               f == [] || (!IsSpace(f[0]) && !IsSpace(f[|f| - 1]))
    ensures ValidateProduct(p) == Some(p)
  {
    ValidIdIsTrimmed(p.id);
    TrimmedFieldKept(p.title, 200);
    TrimmedFieldKept(p.variant, 100);
    TrimmedFieldKept(p.description, 500);
    TrimmedFieldKept(p.price, 50);
    TrimmedFieldKept(p.image, 500);
  }

  /** A validated product in the cart with the given quantity. */
  function NewItem(v: Product, quantity: int): CartItem
    requires v.priceValue.Finite?
  {
    CartItem(v.id, v.title, v.variant, v.description, v.price, v.priceValue.value, v.image, quantity)
  }

  // ---------------------------------------------------------------- operations

  /** `items.map(item => item.id === id ? { ...item, quantity } : item)`. */
  function SetQuantityWhere(items: seq<CartItem>, id: string, quantity: int): (r: seq<CartItem>)
    ensures |r| == |items|
    ensures forall i :: 0 <= i < |items| ==> r[i] == if items[i].id == id then items[i].(quantity := quantity) else items[i]
  {
    seq(|items|, i requires 0 <= i < |items| => if items[i].id == id then items[i].(quantity := quantity) else items[i])
  }

  /** Rewriting quantities keeps every id in place, so lookups find the same positions. */
  lemma SetQuantityWhereLookup(items: seq<CartItem>, id: string, quantity: int, other: string)
    ensures IsInCart(SetQuantityWhere(items, id, quantity), other) == IsInCart(items, other)
    ensures IsInCart(items, id) ==> GetItemQuantity(SetQuantityWhere(items, id, quantity), id) == quantity
    ensures other != id ==> GetItemQuantity(SetQuantityWhere(items, id, quantity), other) == GetItemQuantity(items, other)
  {
    var r := SetQuantityWhere(items, id, quantity);
    assert forall i :: 0 <= i < |items| ==> r[i].id == items[i].id;
    if IsInCart(items, id) {
      FirstMatchQuantity(items, r, id);
    }
    if IsInCart(items, other) && other != id {
      FirstMatchQuantity(items, r, other);
    }
  }

  /** Two lists with the same ids at the same positions find `key` at the same first position. */
  lemma FirstMatchQuantity(items: seq<CartItem>, r: seq<CartItem>, key: string)
    requires |r| == |items| && forall i :: 0 <= i < |items| ==> r[i].id == items[i].id
    requires IsInCart(items, key)
    ensures exists i :: 0 <= i < |items| && items[i].id == key
                        && GetItemQuantity(items, key) == items[i].quantity
                        && GetItemQuantity(r, key) == r[i].quantity
  {
    var i :| 0 <= i < |items| && items[i] == FindById(items, key).value && items[i].id == key
             && forall j :: 0 <= j < i ==> items[j].id != key;
    assert GetItemQuantity(items, key) == items[i].quantity;
    assert GetItemQuantity(r, key) == r[i].quantity;
  }

  /**
   * The branch of `addItem` for a product already in the cart: its quantity goes up by
   * one, saturating at 10; at the maximum the list is returned untouched.
   */
  function IncrementExisting(items: seq<CartItem>, id: string): (r: seq<CartItem>)
    requires IsInCart(items, id)
    ensures |r| == |items|
    ensures forall i :: 0 <= i < |items| ==> r[i].id == items[i].id
    ensures forall i :: 0 <= i < |items| && items[i].id != id ==> r[i] == items[i]
    ensures GetItemQuantity(items, id) == MaxQuantityPerItem ==> r == items
    ensures MinQuantityPerItem <= GetItemQuantity(items, id) < MaxQuantityPerItem ==>
              GetItemQuantity(r, id) == GetItemQuantity(items, id) + 1
    ensures var q := GetItemQuantity(items, id);
            var nq := Clamp(q + 1, MinQuantityPerItem, MaxQuantityPerItem);
            (nq == q ==> r == items)
            && (nq != q ==> forall i :: 0 <= i < |items| && items[i].id == id ==> r[i] == items[i].(quantity := nq))
    ensures AllOk(items) ==> AllOk(r)
  {
    var existing := FindById(items, id).value;
    var newQuantity := SanitizeQuantity(Finite((existing.quantity + 1) as real));
    SanitizeWhole(existing.quantity + 1);
    if newQuantity == existing.quantity then items
    else
      SetQuantityWhereLookup(items, id, newQuantity, id);
      SetQuantityWhere(items, id, newQuantity)
  }

  /**
   * `addItem` on the item list: an invalid product changes nothing; a new product is
   * appended with quantity 1; an existing one has its quantity raised by one, up to 10.
   */
  function AddItemTo(items: seq<CartItem>, p: Product): (r: seq<CartItem>)
    ensures ValidateProduct(p).None? ==> r == items
    ensures ValidateProduct(p).Some? && !IsInCart(items, p.id) ==>
              r == items + [NewItem(ValidateProduct(p).value, 1)]
    ensures ValidateProduct(p).Some? && IsInCart(items, p.id) ==>
              |r| == |items|
              && (forall i :: 0 <= i < |items| ==> r[i].id == items[i].id)
              && (forall i :: 0 <= i < |items| && items[i].id != p.id ==> r[i] == items[i])
              && (GetItemQuantity(items, p.id) == MaxQuantityPerItem ==> r == items)
              && (MinQuantityPerItem <= GetItemQuantity(items, p.id) < MaxQuantityPerItem ==>
                    GetItemQuantity(r, p.id) == GetItemQuantity(items, p.id) + 1)
    ensures ValidateProduct(p).Some? && IsInCart(items, p.id) ==>
              var q := GetItemQuantity(items, p.id);
              var nq := Clamp(q + 1, MinQuantityPerItem, MaxQuantityPerItem);
              nq != q ==> forall i :: 0 <= i < |items| && items[i].id == p.id ==> r[i] == items[i].(quantity := nq)
  {
    match ValidateProduct(p)
    case None => items
    case Some(v) =>
      if IsInCart(items, v.id) then IncrementExisting(items, v.id) else items + [NewItem(v, 1)]
  }

  /** `items.filter(item => item.id !== id)`. */
  function WithoutId(items: seq<CartItem>, id: string): (r: seq<CartItem>)
    ensures |r| <= |items|
    ensures forall i :: 0 <= i < |r| ==> r[i].id != id && r[i] in items
    ensures forall i :: 0 <= i < |items| && items[i].id != id ==> items[i] in r
    ensures !IsInCart(items, id) ==> r == items
  {
    if items == [] then []
    else
      var rest := WithoutId(items[1..], id);
      assert forall i :: 0 < i < |items| ==> items[i] == items[1..][i - 1];
      if items[0].id == id then rest else [items[0]] + rest
  }

  /** The filter works item by item: it keeps an item unchanged exactly when its id differs. */
  lemma WithoutIdOne(it: CartItem, id: string)
    ensures WithoutId([it], id) == if it.id == id then [] else [it]
  {
    assert [it][1..] == [];
  }

  /** The filter commutes with concatenation, so the kept items stay in their order. */
  lemma {:induction false} WithoutIdAppend(a: seq<CartItem>, b: seq<CartItem>, id: string)
    ensures WithoutId(a + b, id) == WithoutId(a, id) + WithoutId(b, id)
    decreases |a|
  {
    if a == [] {
      assert a + b == b;
    } else {
      assert (a + b)[0] == a[0];
      assert (a + b)[1..] == a[1..] + b;
      WithoutIdAppend(a[1..], b, id);
    }
  }

  /** `removeItem` on the item list: an invalid id changes nothing. */
  function RemoveFrom(items: seq<CartItem>, id: string): (r: seq<CartItem>)
    ensures !IsValidProductId(id) ==> r == items
    ensures IsValidProductId(id) ==> !IsInCart(r, id) && r == WithoutId(items, id)
    ensures forall other :: other != id ==> (IsInCart(r, other) <==> IsInCart(items, other))
  {
    if !IsValidProductId(id) then items else WithoutId(items, id)
  }

  /**
   * `updateQuantity` on the item list: an invalid id changes nothing; otherwise every
   * item with that id gets the sanitised quantity. It never removes an item.
   */
  function UpdateQuantityIn(items: seq<CartItem>, id: string, quantity: JsNumber): (r: seq<CartItem>)
    ensures !IsValidProductId(id) ==> r == items
    ensures |r| == |items| && forall i :: 0 <= i < |items| ==> r[i].id == items[i].id
    ensures forall i :: 0 <= i < |items| && items[i].id != id ==> r[i] == items[i]
    ensures IsValidProductId(id) && IsInCart(items, id) ==> GetItemQuantity(r, id) == SanitizeQuantity(quantity)
    ensures IsValidProductId(id) ==>
              forall i :: 0 <= i < |items| && items[i].id == id ==> r[i] == items[i].(quantity := SanitizeQuantity(quantity))
  {
    if !IsValidProductId(id) then items
    else
      SetQuantityWhereLookup(items, id, SanitizeQuantity(quantity), id);
      SetQuantityWhere(items, id, SanitizeQuantity(quantity))
  }

  // ----------------------------------------------------------------- invariants

  lemma AppendKeepsCartOk(items: seq<CartItem>, it: CartItem)
    requires CartOk(items) && ItemOk(it) && !IsInCart(items, it.id)
    ensures CartOk(items + [it])
  {
    var r := items + [it];
    assert forall i :: 0 <= i < |items| ==> r[i] == items[i];
  }

  lemma SameIdsKeepUnique(items: seq<CartItem>, r: seq<CartItem>)
    requires UniqueIds(items) && |r| == |items|
    requires forall i :: 0 <= i < |items| ==> r[i].id == items[i].id
    ensures UniqueIds(r)
  {
  }

  lemma AddItemKeepsCartOk(items: seq<CartItem>, p: Product)
    requires CartOk(items)
    ensures CartOk(AddItemTo(items, p))
  {
    var vp := ValidateProduct(p);
    if vp.Some? {
      if IsInCart(items, p.id) {
        var r := IncrementExisting(items, p.id);
        SameIdsKeepUnique(items, r);
        assert AddItemTo(items, p) == r;
      } else {
        var it := NewItem(vp.value, 1);
        AppendKeepsCartOk(items, it);
        assert AddItemTo(items, p) == items + [it];
      }
    }
  }

  lemma {:induction false} WithoutIdKeepsUnique(items: seq<CartItem>, id: string)
    requires UniqueIds(items)
    ensures UniqueIds(WithoutId(items, id))
    decreases |items|
  {
    if items != [] {
      WithoutIdKeepsUnique(items[1..], id);
      var rest := WithoutId(items[1..], id);
      if items[0].id != id {
        forall k | 0 <= k < |rest| ensures rest[k].id != items[0].id {
          var i :| 0 <= i < |items[1..]| && items[1..][i] == rest[k];
          assert items[i + 1] == rest[k];
        }
      }
    }
  }

  lemma RemoveKeepsCartOk(items: seq<CartItem>, id: string)
    requires CartOk(items)
    ensures CartOk(RemoveFrom(items, id))
  {
    if IsValidProductId(id) {
      WithoutIdKeepsUnique(items, id);
      var r := WithoutId(items, id);
      forall k | 0 <= k < |r| ensures ItemOk(r[k]) {
        var i :| 0 <= i < |items| && items[i] == r[k];
      }
    }
  }

  lemma UpdateKeepsCartOk(items: seq<CartItem>, id: string, quantity: JsNumber)
    requires CartOk(items)
    ensures CartOk(UpdateQuantityIn(items, id, quantity))
  {
  }

  /** `addItem` keeps every item well formed, whether or not ids were unique before. */
  lemma AddItemKeepsAllOk(items: seq<CartItem>, p: Product)
    requires AllOk(items)
    ensures AllOk(AddItemTo(items, p))
  {
    var vp := ValidateProduct(p);
    if vp.Some? && !IsInCart(items, p.id) {
      var r := items + [NewItem(vp.value, 1)];
      assert AddItemTo(items, p) == r;
      assert forall i :: 0 <= i < |items| ==> r[i] == items[i];
    }
  }

  lemma RemoveKeepsAllOk(items: seq<CartItem>, id: string)
    requires AllOk(items)
    ensures AllOk(RemoveFrom(items, id))
  {
    var r := RemoveFrom(items, id);
    forall k | 0 <= k < |r| ensures ItemOk(r[k]) {
      var i :| 0 <= i < |items| && items[i] == r[k];
    }
  }

  /** With unique ids, removing a product takes exactly its quantity off the item count. */
  lemma {:induction false} RemoveTotalItems(items: seq<CartItem>, id: string)
    requires UniqueIds(items)
    ensures GetTotalItems(WithoutId(items, id)) == GetTotalItems(items) - GetItemQuantity(items, id)
    decreases |items|
  {
    if items != [] {
      if items[0].id == id {
        assert !IsInCart(items[1..], id) by {
          forall i | 0 <= i < |items| - 1 ensures items[1..][i].id != id {
            assert items[1..][i] == items[i + 1];
          }
        }
        assert WithoutId(items[1..], id) == items[1..];
      } else {
        RemoveTotalItems(items[1..], id);
        assert GetItemQuantity(items, id) == GetItemQuantity(items[1..], id);
        var r := WithoutId(items, id);
        assert r == [items[0]] + WithoutId(items[1..], id);
        assert r[1..] == WithoutId(items[1..], id);
      }
    }
  }

  // ------------------------------------------------------------------ hydration

  /** The shape of a cart item once `JSON.stringify` has written it to storage. */
  function ItemToJson(it: CartItem): JsValue {
    JObj(map[
      "id" := JStr(it.id), "title" := JStr(it.title), "variant" := JStr(it.variant),
      "description" := JStr(it.description), "price" := JStr(it.price),
      "priceValue" := JNum(Finite(it.priceValue)), "image" := JStr(it.image),
      "quantity" := JNum(Finite(it.quantity as real))])
  }

  function ItemsToJson(items: seq<CartItem>): (r: seq<JsValue>)
    ensures |r| == |items|
    ensures forall i :: 0 <= i < |items| ==> r[i] == ItemToJson(items[i])
  {
    seq(|items|, i requires 0 <= i < |items| => ItemToJson(items[i]))
  }

  /** `partialize`: only the items are written to storage, never `isOpen`. */
  function Persisted(items: seq<CartItem>): JsValue {
    JObj(map["items" := JArr(ItemsToJson(items))])
  }

  /** The cart item an accepted stored value stands for, its quantity sanitised. */
  function ItemFromJson(v: JsValue): (it: CartItem)
    requires IsValidCartItem(v)
    ensures ItemOk(it)
    ensures it.id == Field(v.fields, "id").s && it.title == Field(v.fields, "title").s
            && it.variant == Field(v.fields, "variant").s && it.description == Field(v.fields, "description").s
            && it.price == Field(v.fields, "price").s && it.image == Field(v.fields, "image").s
            && it.priceValue == Field(v.fields, "priceValue").n.value
    ensures it.quantity == Round(Field(v.fields, "quantity").n.value)
  {
    var o := v.fields;
    CartItem(Field(o, "id").s, Field(o, "title").s, Field(o, "variant").s, Field(o, "description").s,
             Field(o, "price").s, Field(o, "priceValue").n.value, Field(o, "image").s,
             SanitizeQuantity(Field(o, "quantity").n))
  }

  /** `items.filter(isValidCartItem).map(sanitize quantity)`. */
  function HydrateItems(elems: seq<JsValue>): (r: seq<CartItem>)
    ensures |r| <= |elems|
    ensures AllOk(r)
  {
    if elems == [] then []
    else
      var rest := HydrateItems(elems[1..]);
      if IsValidCartItem(elems[0]) then [ItemFromJson(elems[0])] + rest else rest
  }

  datatype CartSnapshot = CartSnapshot(items: seq<CartItem>, isOpen: bool)

  /**
   * `validatePersistedState`: anything that is not an object holding an `items` array
   * gives the empty, closed cart; otherwise every entry that fails `isValidCartItem` is dropped.
   * The cart always comes back closed.
   */
  function ValidatePersistedState(state: JsValue): (r: CartSnapshot)
    ensures !r.isOpen && AllOk(r.items)
    ensures !(state.JObj? && Field(state.fields, "items").JArr?) ==> r.items == []
    ensures state.JObj? && Field(state.fields, "items").JArr? ==>
              r.items == HydrateItems(Field(state.fields, "items").elems)
  {
    if !state.JObj? then CartSnapshot([], false)
    else
      var items := Field(state.fields, "items");
      if !items.JArr? then CartSnapshot([], false)
      else CartSnapshot(HydrateItems(items.elems), false)
  }

  lemma {:induction false} HydrateAppend(a: seq<JsValue>, b: seq<JsValue>)
    ensures HydrateItems(a + b) == HydrateItems(a) + HydrateItems(b)
    decreases |a|
  {
    if a == [] {
      assert a + b == b;
    } else {
      assert (a + b)[1..] == a[1..] + b;
      HydrateAppend(a[1..], b);
    }
  }

  /** A tampered entry is dropped and the entries around it survive. */
  lemma TamperedEntryDropped(a: seq<JsValue>, bad: JsValue, b: seq<JsValue>)
    requires !IsValidCartItem(bad)
    ensures HydrateItems(a + [bad] + b) == HydrateItems(a) + HydrateItems(b)
  {
    HydrateAppend(a + [bad], b);
    HydrateAppend(a, [bad]);
    assert HydrateItems([bad]) == [];
  }

  /** A valid entry is kept, in its place, as the item it stands for. */
  lemma ValidEntryKept(a: seq<JsValue>, good: JsValue, b: seq<JsValue>)
    requires IsValidCartItem(good)
    ensures HydrateItems(a + [good] + b) == HydrateItems(a) + [ItemFromJson(good)] + HydrateItems(b)
  {
    HydrateAppend(a + [good], b);
    HydrateAppend(a, [good]);
    assert HydrateItems([good]) == [ItemFromJson(good)];
  }

  /** A stored quantity of 3.6 passes the structural check and comes back rounded to 4. */
  lemma FractionalQuantityRounded(v: JsValue)
    requires IsValidCartItem(v) && Field(v.fields, "quantity") == JNum(Finite(3.6))
    ensures HydrateItems([v]) == [ItemFromJson(v)] && ItemFromJson(v).quantity == 4
  {
    assert Round(3.6) == 4;
  }

  /**
   * Hydration filters entries but never merges them: two stored entries with one id both
   * load, so a rehydrated cart need not have unique ids.
   */
  lemma DuplicateEntriesBothLoad(v: JsValue)
    requires IsValidCartItem(v)
    ensures HydrateItems([v, v]) == [ItemFromJson(v), ItemFromJson(v)]
    ensures !UniqueIds(HydrateItems([v, v]))
  {
    assert [v, v][1..] == [v];
    assert [v][1..] == [];
    assert HydrateItems([v]) == [ItemFromJson(v)];
    var r := HydrateItems([v, v]);
    assert r == [ItemFromJson(v)] + [ItemFromJson(v)];
    assert r[0].id == r[1].id;
  }

  lemma ItemJsonRoundTrip(it: CartItem)
    requires ItemOk(it)
    ensures IsValidCartItem(ItemToJson(it)) && ItemFromJson(ItemToJson(it)) == it
  {
    SanitizeQuantityIdentity(it.quantity);
  }

  lemma {:induction false} HydrateRoundTrip(items: seq<CartItem>)
    requires AllOk(items)
    ensures HydrateItems(ItemsToJson(items)) == items
    decreases |items|
  {
    if items != [] {
      ItemJsonRoundTrip(items[0]);
      assert ItemsToJson(items)[1..] == ItemsToJson(items[1..]);
      HydrateRoundTrip(items[1..]);
      assert items == [items[0]] + items[1..];
    }
  }

  /** Writing the cart to storage and reading it back gives the same items, closed. */
  lemma PersistRoundTrip(items: seq<CartItem>)
    requires AllOk(items)
    ensures ValidatePersistedState(Persisted(items)) == CartSnapshot(items, false)
  {
    HydrateRoundTrip(items);
  }

  // ---------------------------------------------------------------------- store

  /** `useCartStore`: the items and whether the cart drawer is open. */
  class Cart {
    var items: seq<CartItem>
    var isOpen: bool

    predicate Valid()
      reads this
    {
      AllOk(items)
    }

    constructor()
      ensures items == [] && !isOpen && Valid()
    {
      items := [];
      isOpen := false;
    }

    method AddItem(p: Product)
      requires Valid()
      modifies this
      ensures items == AddItemTo(old(items), p) && isOpen == old(isOpen)
      ensures Valid()
      ensures old(CartOk(items)) ==> CartOk(items)
    {
      AddItemKeepsAllOk(items, p);
      if old(CartOk(items)) { AddItemKeepsCartOk(items, p); }
      items := AddItemTo(items, p);
    }

    method RemoveItem(id: string)
      requires Valid()
      modifies this
      ensures items == RemoveFrom(old(items), id) && isOpen == old(isOpen)
      ensures Valid()
      ensures old(CartOk(items)) ==> CartOk(items)
    {
      RemoveKeepsAllOk(items, id);
      if CartOk(items) { RemoveKeepsCartOk(items, id); }
      items := RemoveFrom(items, id);
    }

    method UpdateQuantity(id: string, quantity: JsNumber)
      requires Valid()
      modifies this
      ensures items == UpdateQuantityIn(old(items), id, quantity) && isOpen == old(isOpen)
      ensures Valid()
      ensures old(CartOk(items)) ==> CartOk(items)
    {
      if CartOk(items) { UpdateKeepsCartOk(items, id, quantity); }
      items := UpdateQuantityIn(items, id, quantity);
    }

    method ClearCart()
      modifies this
      ensures items == [] && isOpen == old(isOpen) && Valid()
    {
      items := [];
    }

    method ToggleCart()
      modifies this
      ensures isOpen == !old(isOpen) && items == old(items)
    {
      isOpen := !isOpen;
    }

    method OpenCart()
      modifies this
      ensures isOpen && items == old(items)
    {
      isOpen := true;
    }

    method CloseCart()
      modifies this
      ensures !isOpen && items == old(items)
    {
      isOpen := false;
    }

    /**
     * Hydration from storage: `merge` validates the stored value into the current state,
     * then the rehydration callback validates the merged items again and closes the cart.
     */
    method Rehydrate(stored: JsValue)
      modifies this
      ensures items == ValidatePersistedState(stored).items && !isOpen && Valid()
    {
      var merged := ValidatePersistedState(stored).items;
      items := merged;
      PersistRoundTrip(merged);
      items := ValidatePersistedState(Persisted(items)).items;
      isOpen := false;
    }
  }
}
