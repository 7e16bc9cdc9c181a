# Sherry Berry checkout and payment core, modelled in Dafny

Sherry Berry is a storefront for an artisanal candle brand. This project models the part of it that moves money:

- the cart store and its persisted state;
- the checkout store, which pulls the cart, a selected shipping rate and a tax line into one set of totals;
- the shipping and tax calculators;
- the payment form, which tokenises a card and submits it with one idempotency key, a bounded retry and exponential backoff;
- the payment API route: a per-IP rate limiter, request validation, the charge and the in-memory order store;
- the order-details route that serves the confirmation page.

It also models the helpers around that path: payment validation, the Square payments manager, the language provider, the contact-form e-mail helpers, the CDN URL helpers and the project catalogue.

Layout:

- One Dafny module per source file.
- Stateful objects become classes whose methods are proved against pure functions of the old state:
  - the rate limiter;
  - the order store;
  - the cart;
  - the checkout store;
  - the payment form controller;
  - the Square payments manager;
  - the language provider.
- Everything else is functions and lemmas.

Shared modules:

- `Wrappers` holds `Option` and `Result`.
- `JsStrings` holds the JavaScript string built-ins the code relies on: `trim` with the JavaScript whitespace set, `includes`, `split`, `join`, `slice`, `replace`, and `toUpperCase`/`toLowerCase` restricted to the ASCII letters. Lengths count characters, not UTF-16 code units; both simplifications are listed under Left out.
- `JsObjects` holds property lookup on an object literal. It includes the names inherited from `Object.prototype`, because `key in obj` and `obj[key]` see them.
- `ZodRules` writes zod's `uuid()` and `email()` checks out as predicates, in their zod 3 form.

Values outside the code are parameters of the model, so every operation is deterministic:

- the clock (`now`);
- the payment provider's replies;
- the card widget's tokenisation result;
- `fetch` replies;
- fresh UUIDs: a `freshKey` that is not among the keys used so far;
- whether `localStorage` throws.

The rate limiter's cleanup interval and the order store's 24-hour timer become explicit steps. These are `RateLimiter.Cleanup` and `OrderStore.Expire`; each pending timer is recorded in a multiset.

Five behaviours of the code a reader may not expect. Each is modelled as written; where the bullet names a corrected form as well, that form is what the named class or method uses:

- **Checkout reset.** The code's `reset` calls `set(initialState)`. That shallow merge keeps `shipping`, `tax`, `payment` and `error`, which `initialState` does not mention. `CheckoutStore.ResetAsWritten` models that; the class uses the evident intent, `CheckoutStore.ResetOn`.
- **Step order.** `setStep` assigns any step in any order. Nothing enforces forward-only movement.
- **US tax rate.** The state rate is chosen with `||`. A state whose table rate is 0 (AK, DE, MT, NH, OR) therefore gets the 8% default, not 0.
- **Order-details parameters.** The route's validator rejects the `null` that `searchParams.get` returns for a missing parameter. `OrderDetailsRoute.RespondAsWritten` models that; the `OrderDetailsRoute.Get` method answers with the evident intent, `OrderDetailsRoute.Respond`, so a key-only link finds its order there. See Findings.
- **Language restore.** The restore effect depends on `[language]` and re-runs after every change. `LanguageState.CommitAsWritten` models that; the `LanguageProvider.RunEffects` method runs the evident intent, `LanguageState.Commit`, which restores once. So with "en" stored and writes failing, `setLanguage("fr")` shows French in the model and English in the code. See Findings.

## Model

| member | source | states |
|---|---|---|
| RateLimiting.CheckStep | src/lib/rate-limiter.ts:24-61 | A first request, or one with `now > resetAt`, installs count 1 and window end `now + windowMs` and is allowed with `max - 1` left. `now == resetAt` is still inside the window. Inside the window under the cap, the count rises by one, the window end is kept and `remaining = max - count`. At the cap the request is denied with 0 left, the same window end and the map unchanged. Entries for other identifiers are untouched. |
| RateLimiting.CheckKeepsBounds | src/lib/rate-limiter.ts:33-53 | Every entry keeps `1 <= count <= maxRequests` across a check. |
| RateLimiting.BurstCounts | src/lib/rate-limiter.ts:24-61 | n checks from count c, all inside one window, give the k-th result "allowed with `max-(c+k+1)` left" while `c+k < max`, then "denied". The count stops at `max`. |
| RateLimiting.FreshBurst | src/lib/rate-limiter.ts:33-60 | From a fresh window, exactly the first `max` checks are allowed, with remaining `max-1` down to 0. All results carry the same `resetAt`. |
| RateLimiting.DefaultsAllowFive | src/lib/rate-limiter.ts:75 | With the payment limiter's settings (5 per 60000 ms), six checks give remaining 4, 3, 2, 1, 0 and then a denial. |
| RateLimiting.Unexpired | src/lib/rate-limiter.ts:63-70 | Keeps exactly the entries with `now <= resetAt`, each unchanged. |
| RateLimiting.RateLimiter.constructor | src/lib/rate-limiter.ts:16-22 | Stores the limits (defaults 5 and 60000) with an empty map. |
| RateLimiting.RateLimiter.Check | src/lib/rate-limiter.ts:24-61 | The result and the new map are `CheckStep` of the old map; the bound invariant is kept. |
| RateLimiting.RateLimiter.Cleanup | src/lib/rate-limiter.ts:63-70 | The loop over the entries deletes exactly the expired ones: the new map is `Unexpired(old map, now)`. |
| RateLimiting.NewPaymentRateLimiter | src/lib/rate-limiter.ts:75 | The shared limiter allows 5 requests per 60000 ms and starts empty. |
| RateLimiting.SixChecks | src/lib/rate-limiter.ts:24-61 | Six calls on a new payment limiter, made in a loop on one identifier, return 4, 3, 2, 1, 0 remaining and then a denial. |
| Orders.OrderStore.constructor | src/lib/order-store.ts:42-43 | The store starts empty with no pending expiries. |
| Orders.OrderStore.Set | src/lib/order-store.ts:49-56 | Afterwards `get(key)` is the stored order and every other key reads as before. The size grows by one exactly when the key was new. One more 24-hour expiry is scheduled for the key. |
| Orders.OrderStore.Get | src/lib/order-store.ts:61-63 | Defined exactly for stored keys, and returns the stored order. |
| Orders.OrderStore.Delete | src/lib/order-store.ts:68-70 | The key reads as undefined afterwards and other keys are unchanged. The size drops by one exactly when the key was present. |
| Orders.OrderStore.Has | src/lib/order-store.ts:75-77 | `has(k)` holds iff `get(k)` is defined. |
| Orders.OrderStore.Size | src/lib/order-store.ts:82-84 | The number of stored keys. |
| Orders.OrderStore.Expire | src/lib/order-store.ts:53-55 | A scheduled expiry fires: the key is gone and other keys are unchanged. |
| Orders.RewriteExpiresWithFirstTimer | src/lib/order-store.ts:49-56 | Writing a key twice and then firing the first write's timer removes the second record too. |
| Orders.DeleteThenExpire | src/lib/order-store.ts:53-70 | Deleting a key and then firing its timer is harmless: the key stays absent and another key keeps its order. |
| CheckoutTypes.ParseCountry | src/types/checkout.ts:287-290 | A country is recognised iff the string is MX, US or CA, and it maps back to the same code. |
| CheckoutTypes.ParseShippingMethod | src/types/checkout.ts:292-297 | A method is recognised iff the string is "standard" or "express", and it maps back to the same string. |
| CheckoutTypes.CountryCodeRoundTrip | src/types/checkout.ts:14-15 | Every country's code passes the guard and parses back to that country. |
| CheckoutTypes.StatusGuardsExact | src/types/checkout.ts:299-307 | The order-status and payment-status guards accept exactly the 8 and 5 listed literals. |
| CheckoutTypes.CurrencyIdentifiesCountry | src/types/checkout.ts:264-268 | Each country has its own currency (MX→MXN, US→USD, CA→CAD): equal currencies mean equal countries. |
| CheckoutTypes.FreeShippingThreshold | src/types/checkout.ts:257-261 | Every country's free-shipping threshold is positive, so a total of 0 never reaches it. |
| CheckoutTypes.SchemaAddressHasSupportedCountry | src/types/checkout.ts:185-198 | An address passing the schema has a supported country, a non-empty first name, a phone of at least 10 characters and a postal code of at least 3. |
| Shipping.ExpressCostsMore | src/lib/shipping/calculator.ts:19-35 | In every country the express price is above the standard price. |
| Shipping.TablePrice | src/lib/shipping/calculator.ts:19-35 | Every table price is positive, so only the free-shipping rule can make a rate free. |
| Shipping.GetShippingRate | src/lib/shipping/calculator.ts:103-125 | The rate has the requested method and the country's currency. Its price is 0 iff the method is standard and the cart total is truthy and at least the threshold; otherwise it is the table price. Express is never free. |
| Shipping.CalculateShippingRates | src/lib/shipping/calculator.ts:56-98 | Succeeds iff the country is MX, US or CA, with two rates: standard first, then express at the table price, both in the country's currency. Any other name that is not inherited from `Object.prototype` fails with "Shipping not available to " + country. |
| Shipping.RatesAgreeWithGetShippingRate | src/lib/shipping/calculator.ts:103-125 | For a supported country, `getShippingRate(c, m, t)` is one of the rates `calculateShippingRates` returns for the same country and total. |
| Shipping.StandardFreeExactly | src/lib/shipping/calculator.ts:71-85 | The standard rate is free iff a total is given and it is at least the threshold; otherwise it costs the table price. |
| Shipping.GetFreeShippingThreshold | src/lib/shipping/calculator.ts:137-139 | The country's threshold (1000 MXN, 75 USD, 100 CAD), always positive. |
| Shipping.QualifiesAgreesWithStandardRate | src/lib/shipping/calculator.ts:144-149 | `qualifiesForFreeShipping(c, t)` holds iff the standard rate for total t is free. A total of 0 never qualifies. |
| Shipping.AvailabilityGuardAcceptsPrototypeName | src/lib/shipping/calculator.ts:130-132 | As written, the guard accepts "toString", yet the calculator fails for that country. |
| Shipping.AvailabilityMatchesCalculator | src/lib/shipping/calculator.ts:130-132 | The corrected guard holds iff the calculator succeeds, and it implies the written guard. |
| Shipping.FormatShippingRate | src/lib/shipping/calculator.ts:154-163 | The label is "FREE" exactly when the price is 0; otherwise it is the price in the rate's currency. |
| Shipping.ExpressNeverLabelledFree | src/lib/shipping/calculator.ts:87-95 | An express rate is never labelled free. |
| Taxes.CountryTaxOf | src/lib/taxes/calculator.ts:9-28 | Every country's base rate lies in (0, 0.16]. |
| Taxes.StateTaxRate | src/lib/taxes/calculator.ts:31-82 | Listed state rates lie in [0, 0.08], and only AK, DE, MT, NH and OR have rate 0. |
| Taxes.ProvinceTaxOf | src/lib/taxes/calculator.ts:85-100 | Listed provincial rates lie in [0.05, 0.15]. |
| Taxes.UsRate | src/lib/taxes/calculator.ts:128-134 | The state rate when it is listed and non-zero, else the 0.08 default; always in (0, 0.08]. |
| Taxes.TaxForCode | src/lib/taxes/calculator.ts:112-157 | The switch on the country succeeds iff the country is MX, US or CA, with `amount = taxable * rate` and the rate in (0, 0.16]. The fall-through message depends on whether the name is inherited from `Object.prototype`. |
| Taxes.CalculateTax | src/lib/taxes/calculator.ts:105-167 | Succeeds iff the country is MX, US or CA, with `amount = taxable * rate`, `0 < rate <= 0.16` and the given country. Other names fail with "Tax calculation not supported for " + country. Names inherited from `Object.prototype` pass the guard and fail in the switch with "Unsupported country: " + country. |
| Taxes.MexicoTax | src/lib/taxes/calculator.ts:122-126 | MX always gives rate 0.16, name "IVA" and no region. |
| Taxes.UnitedStatesTax | src/lib/taxes/calculator.ts:128-134 | US gives "Sales Tax" with the upper-cased state as region, even when that state is not listed. The rate is the listed state rate when non-zero, else 0.08. |
| Taxes.ZeroRateStatesFallBack | src/lib/taxes/calculator.ts:130 | The five zero-rate states get 0.08, because of `\|\|`. |
| Taxes.CanadaTax | src/lib/taxes/calculator.ts:136-151 | CA with a listed province gives that province's rate, name and region. Otherwise it gives 0.05, "GST" and no region. |
| Taxes.StateLookupCaseInsensitive | src/lib/taxes/calculator.ts:129-137 | Two addresses whose states agree after upper-casing get the same tax. |
| Taxes.LowerCaseCaliforniaSameAsUpper | src/lib/taxes/calculator.ts:129-134 | "ca" and "CA" give the same result, at rate 0.0725. |
| Taxes.GetTaxRate | src/lib/taxes/calculator.ts:172-195 | Always in (0, 0.16]. Without a state, it is the country's base rate. |
| Taxes.GetTaxRateAgreesWithCalculateTax | src/lib/taxes/calculator.ts:172-195 | `getTaxRate(c, s)` equals the rate `calculateTax` gives for country c and state s, for every amount. |
| Taxes.GetTaxInfo | src/lib/taxes/calculator.ts:214-271 | Its rate is `getTaxRate`. Its name is the country's, except for a listed Canadian province. |
| Taxes.GetTaxInfoAgreesWithCalculateTax | src/lib/taxes/calculator.ts:214-271 | For a non-empty state, rate, name and description are those of `calculateTax`'s result. |
| Taxes.TaxGuardAcceptsPrototypeName | src/lib/taxes/calculator.ts:207-209 | As written, the guard accepts "constructor", yet the calculator fails for it. |
| Taxes.TaxGuardMatchesCalculator | src/lib/taxes/calculator.ts:207-209 | The corrected guard holds iff `calculateTax` succeeds, and it implies the written guard. |
| CartTypes.Round | src/shared/types/cart.ts:96 | `Math.round`: the nearest integer, with halves rounded up. |
| CartTypes.SanitizeQuantity | src/shared/types/cart.ts:90-98 | Always an integer in [1, 10]. A non-finite input gives 1. A finite one is rounded and then clamped. |
| CartTypes.SanitizeQuantityIdentity | src/shared/types/cart.ts:90-98 | The identity on the integers 1 to 10. |
| CartTypes.SanitizeWhole | src/shared/types/cart.ts:94-97 | A whole number is clamped to [1, 10]. |
| CartTypes.SanitizeQuantityIdempotent | src/shared/types/cart.ts:90-98 | Sanitising a sanitised quantity changes nothing. |
| CartTypes.ValidIdIsTrimmed | src/shared/types/cart.ts:73-78 | A valid product id has no surrounding whitespace. |
| CartStore.FindById | src/shared/store/cartStore.ts:101-104 | Finds the first item with the id, or nothing exactly when no item has it. |
| CartStore.IsInCart | src/shared/store/cartStore.ts:222-223 | Holds iff some item has the id. |
| CartStore.GetItemQuantity | src/shared/store/cartStore.ts:226-227 | The first matching item's quantity, or 0 when absent. In a well-formed cart it is positive iff the item is in the cart, and at most 10. |
| CartStore.GetTotalItems | src/shared/store/cartStore.ts:211-212 | In a well-formed cart, between 1 and 10 times the number of lines. |
| CartStore.TotalItemsAppend | src/shared/store/cartStore.ts:211-212 | The sum of quantities is additive over concatenation. |
| CartStore.GetTotalPrice | src/shared/store/cartStore.ts:215-219 | Non-negative in a well-formed cart, and 0 only if every price is 0. |
| CartStore.TotalPriceAppend | src/shared/store/cartStore.ts:215-219 | The sum of `priceValue * quantity` is additive over concatenation. |
| CartStore.ValidateProduct | src/shared/store/cartStore.ts:63-84 | Accepts iff the id is valid and the price finite and non-negative, keeping id and price. Each text field is the first 200/100/500/50/500 characters of the input's field with the white space at both ends removed: a contiguous piece of that prefix that starts and ends visibly, with only white space around it. |
| CartStore.TrimmedFieldKept | src/shared/store/cartStore.ts:75-83 | A text field within its limit and without surrounding white space is kept as it is. |
| CartStore.CleanProductKept | src/shared/store/cartStore.ts:63-84 | A valid product whose text fields are within their limits and trimmed is returned unchanged. |
| CartStore.ValidateProductIdempotent | src/shared/store/cartStore.ts:63-84 | Validating an already validated product returns it unchanged. |
| CartStore.SetQuantityWhere | src/shared/store/cartStore.ts:113-119 | Same length, with every item of the id given the new quantity and every other item unchanged. |
| CartStore.SetQuantityWhereLookup | src/shared/store/cartStore.ts:113-119 | Membership is unchanged, and the id reads back the new quantity while other ids keep theirs. |
| CartStore.IncrementExisting | src/shared/store/cartStore.ts:106-121 | With q the first matching item's quantity and q' = clamp(q+1, 1, 10): when q' = q the list is returned as it is; otherwise every item with the id becomes itself with quantity q', all other fields kept. Items of other ids, the order and the length are unchanged, and well-formedness is kept. |
| CartStore.AddItemTo | src/shared/store/cartStore.ts:97-132 | An invalid product leaves the cart unchanged. A new id is appended last with quantity 1. For an existing id, every item with the id is that item with its quantity raised to clamp(q+1, 1, 10), its other fields kept; at 10 the cart is unchanged. Items of other ids are untouched. |
| CartStore.WithoutId | src/shared/store/cartStore.ts:141 | Drops exactly the items with the id and keeps the others. Its append and one-item lemmas pin it to an order-preserving filter. |
| CartStore.WithoutIdOne | src/shared/store/cartStore.ts:141 | A single item is dropped iff it has the id, and is otherwise kept unchanged. |
| CartStore.WithoutIdAppend | src/shared/store/cartStore.ts:141 | Filtering commutes with concatenation, so the kept items stay unchanged and in their order. |
| CartStore.RemoveFrom | src/shared/store/cartStore.ts:134-143 | An invalid id is a no-op. Otherwise the result is the order-preserving filter `WithoutId`: the id is gone and every other id keeps its membership. |
| CartStore.UpdateQuantityIn | src/shared/store/cartStore.ts:145-158 | An invalid id is a no-op. Otherwise every item with the id becomes itself with the sanitised quantity, all other fields kept. Other items are unchanged, the ids and length stay the same, and no item is added or removed. |
| CartStore.AppendKeepsCartOk | src/shared/store/cartStore.ts:124-130 | Appending a well-formed item with a new id keeps ids unique and quantities in [1, 10]. |
| CartStore.SameIdsKeepUnique | src/shared/store/cartStore.ts:106-121 | A cart edit that keeps every position's id keeps ids unique. |
| CartStore.AddItemKeepsCartOk | src/shared/store/cartStore.ts:97-132 | `addItem` keeps ids unique and quantities in [1, 10]. |
| CartStore.WithoutIdKeepsUnique | src/shared/store/cartStore.ts:141 | Filtering keeps ids unique. |
| CartStore.RemoveKeepsCartOk | src/shared/store/cartStore.ts:134-143 | `removeItem` keeps the cart invariant. |
| CartStore.UpdateKeepsCartOk | src/shared/store/cartStore.ts:145-158 | `updateQuantity` keeps the cart invariant. |
| CartStore.AddItemKeepsAllOk | src/shared/store/cartStore.ts:97-132 | `addItem` keeps every item well formed, even in a cart whose ids are not unique. |
| CartStore.RemoveKeepsAllOk | src/shared/store/cartStore.ts:134-143 | `removeItem` keeps every item well formed. |
| CartStore.RemoveTotalItems | src/shared/store/cartStore.ts:134-143 | Removing an id lowers the item count by exactly that id's quantity. |
| CartStore.ItemsToJson | src/shared/store/cartStore.ts:180 | The persisted array has one JSON object per item, in order. |
| CartStore.ItemFromJson | src/shared/store/cartStore.ts:44-52 | An entry that passes `isValidCartItem` yields a well-formed item. Its text fields and price are copied from the entry, and its quantity is the entry's rounded by `Math.round`. |
| CartStore.HydrateItems | src/shared/store/cartStore.ts:44-52 | Keeps at most the given entries, and all of them are well-formed. |
| CartStore.ValidatePersistedState | src/shared/store/cartStore.ts:29-58 | The cart is always closed and well-formed. A non-object, or an object whose `items` is not an array, gives an empty cart. Otherwise the items are exactly the hydrated `items` array: the valid entries, in order, with sanitised quantities. |
| CartStore.HydrateAppend | src/shared/store/cartStore.ts:44-52 | Filtering commutes with concatenation, so the valid entries are kept in order. |
| CartStore.TamperedEntryDropped | src/shared/store/cartStore.ts:44-52 | An invalid entry is dropped and its neighbours are kept. |
| CartStore.ValidEntryKept | src/shared/store/cartStore.ts:44-52 | A valid entry is kept in its place as the item it stands for, between its neighbours' results. |
| CartStore.FractionalQuantityRounded | src/shared/store/cartStore.ts:47-52 | A stored quantity of 3.6 passes the structural check and loads as 4. |
| CartStore.DuplicateEntriesBothLoad | src/shared/store/cartStore.ts:44-52 | Two stored entries with one id both load, so a rehydrated cart need not have unique ids. |
| CartStore.ItemJsonRoundTrip | src/shared/types/cart.ts:103-125 | A well-formed item's JSON passes `isValidCartItem` and reads back as the same item. |
| CartStore.HydrateRoundTrip | src/shared/store/cartStore.ts:44-52 | Rehydrating the persisted items of a well-formed cart gives the same items. |
| CartStore.PersistRoundTrip | src/shared/store/cartStore.ts:180-200 | Persisting a well-formed cart and validating it on load gives the same items, closed. |
| CartStore.Cart.constructor | src/shared/store/cartStore.ts:92-95 | An empty, closed cart. |
| CartStore.Cart.AddItem | src/shared/store/cartStore.ts:97-132 | The items become `AddItemTo(old items, product)` and the open flag is kept. Every item stays well formed; unique ids stay unique when they were unique before. |
| CartStore.Cart.RemoveItem | src/shared/store/cartStore.ts:134-143 | The items become `RemoveFrom(old items, id)`. Every item stays well formed; unique ids stay unique when they were unique before. |
| CartStore.Cart.UpdateQuantity | src/shared/store/cartStore.ts:145-158 | The items become `UpdateQuantityIn(old items, id, quantity)`. Every item stays well formed; unique ids stay unique when they were unique before. |
| CartStore.Cart.ClearCart | src/shared/store/cartStore.ts:160-162 | Empties the items, which is well formed, and keeps the open flag. |
| CartStore.Cart.ToggleCart | src/shared/store/cartStore.ts:164-166 | Flips the open flag and keeps the items. |
| CartStore.Cart.OpenCart | src/shared/store/cartStore.ts:168-170 | Opens the cart and keeps the items. |
| CartStore.Cart.CloseCart | src/shared/store/cartStore.ts:172-174 | Closes the cart and keeps the items. |
| CartStore.Cart.Rehydrate | src/shared/store/cartStore.ts:182-200 | Loads the validated persisted items, closed and well formed. Duplicate ids in storage are not merged (see `DuplicateEntriesBothLoad`). |
| CheckoutStore.InitialState | src/shared/store/checkoutStore.ts:50-61 | Step "cart", no items, not loading, and zero totals in USD, which are consistent. |
| CheckoutStore.SetStepOn | src/shared/store/checkoutStore.ts:66-68 | Any step may be set, in any order; nothing else changes. |
| CheckoutStore.TaxFor | src/shared/store/checkoutStore.ts:120-130 | No tax without an address. With one, the tax line is `calculateTax`'s result when that succeeds; a failure leaves no tax line and does not throw. |
| CheckoutStore.ComputeTotals | src/shared/store/checkoutStore.ts:101-141 | `total = subtotal + shipping + tax`. The subtotal is the cart's total price. Shipping is the selected rate's price or 0. Tax is the tax line's amount on `subtotal + shipping`, or 0. The currency is the rate's, or "USD" when there is none or it is empty. |
| CheckoutStore.TotalsNonNegative | src/shared/store/checkoutStore.ts:101-141 | For a well-formed cart and a non-negative rate, every part is non-negative and the total is at least subtotal plus shipping. |
| CheckoutStore.CalculateTotalsOn | src/shared/store/checkoutStore.ts:101-148 | Takes a snapshot of the cart items, stores the consistent totals and the tax line, and changes nothing else. |
| CheckoutStore.UpdateShippingOn | src/shared/store/checkoutStore.ts:70-95 | Stores `{address, rate, [rate]}`, clears the error and ends not loading. The totals and tax line are recomputed from the cart and the new shipping: subtotal the cart's total price, shipping the rate's price, tax `calculateTax` on their sum when it succeeds, and currency the rate's or "USD" when empty. Step and payment are kept. |
| CheckoutStore.UpdatePaymentOn | src/shared/store/checkoutStore.ts:97-99 | Sets the payment info and nothing else. |
| CheckoutStore.ReadyAfterShipping | src/shared/store/checkoutStore.ts:170-178 | After a shipping update with a non-empty cart, the state is ready for payment. |
| CheckoutStore.EachGateBlocks | src/shared/store/checkoutStore.ts:170-178 | Each failed condition blocks readiness on its own: loading, no items, no shipping, or a non-empty error. |
| CheckoutStore.ResetAsWritten | src/shared/store/checkoutStore.ts:158-160 | As written, the merge restores step, items, totals and loading, and keeps shipping, tax, payment and error. |
| CheckoutStore.ResetKeepsAddress | src/shared/store/checkoutStore.ts:158-160 | After a reset as written the state is not the initial one; the old shipping address survives. |
| CheckoutStore.ResetOn | src/shared/store/checkoutStore.ts:50-61 | The corrected reset gives exactly the initial state, which has no shipping and no error and is not ready for payment. |
| CheckoutStore.Checkout.Assign | src/shared/store/checkoutStore.ts:63-64 | The store fields are replaced by the given state. |
| CheckoutStore.Checkout.constructor | src/shared/store/checkoutStore.ts:63-64 | The store starts in the initial state. |
| CheckoutStore.Checkout.SetStep | src/shared/store/checkoutStore.ts:66-68 | The new state is `SetStepOn(old state, step)`. |
| CheckoutStore.Checkout.CalculateTotals | src/shared/store/checkoutStore.ts:101-148 | The new state is `CalculateTotalsOn(old state, cart.items)`, with consistent totals. |
| CheckoutStore.Checkout.UpdateShipping | src/shared/store/checkoutStore.ts:70-95 | The new state is `UpdateShippingOn(...)`. With a non-empty cart it is ready for payment. |
| CheckoutStore.Checkout.UpdatePayment | src/shared/store/checkoutStore.ts:97-99 | The new state is `UpdatePaymentOn(old state, payment)`. |
| CheckoutStore.Checkout.SetLoading | src/shared/store/checkoutStore.ts:150-152 | Only the loading flag changes. |
| CheckoutStore.Checkout.SetError | src/shared/store/checkoutStore.ts:154-156 | Only the error changes. |
| CheckoutStore.Checkout.Reset | src/shared/store/checkoutStore.ts:158-160 | The corrected reset: the new state is the initial state. |
| CheckoutStore.Checkout.GetTotals | src/shared/store/checkoutStore.ts:162-164 | Returns the current totals. |
| PaymentForm.OrElse | src/components/checkout/PaymentForm/PaymentForm.tsx:109 | `error \|\| fallback`: the message when it is non-empty, else the fallback. |
| PaymentForm.ProcessPayment | src/components/checkout/PaymentForm/PaymentForm.tsx:94-123 | Succeeds iff the response is ok and its `success` is true, returning the three ids. A non-ok response fails with its error or "Payment processing failed". An ok response without success fails with its error or "Payment failed". A rejected fetch fails with its message. |
| PaymentForm.RetriedWithoutIOrV | src/components/checkout/PaymentForm/PaymentForm.tsx:170-175 | A message without 'I' and without 'v' is always retried. |
| PaymentForm.NonRetryableIffWordOccurs | src/components/checkout/PaymentForm/PaymentForm.tsx:170-175 | A message stops the retries iff "Invalid" or "validation" occurs in it at some position. |
| PaymentForm.StatusDoesNotDecide | src/components/checkout/PaymentForm/PaymentForm.tsx:107-116 | With the same error text, an HTTP failure and an ok-but-unsuccessful reply stop the retry loop alike. The decision is the message's "Invalid"/"validation" test. |
| PaymentForm.AttemptsFrom | src/components/checkout/PaymentForm/PaymentForm.tsx:154-185 | The loop stops at the first success or non-retryable failure, or after 3 attempts. Every earlier attempt was a retryable failure. |
| PaymentForm.BackoffSchedule | src/components/checkout/PaymentForm/PaymentForm.tsx:178-183 | The k-th wait is `2^k * 1000` ms. |
| PaymentForm.BackoffDoubles | src/components/checkout/PaymentForm/PaymentForm.tsx:178-183 | The two waits are 1000 and 2000 ms, and each wait doubles the previous one. |
| PaymentForm.RequestFor | src/components/checkout/PaymentForm/PaymentForm.tsx:98-104 | The request carries the current idempotency key, the totals' currency and the shipping address. The amount in cents is `total * 100` rounded to the nearest integer. |
| PaymentForm.ChargeOutcome | src/components/checkout/PaymentForm/PaymentForm.tsx:141-188 | A failed tokenisation makes no submission and fails with the widget's first message or "Card validation failed". Otherwise there are 1 to 3 submissions, the result is that of the last one, and every earlier one was a retryable failure. |
| PaymentForm.NonRetryableStopsAtOnce | src/components/checkout/PaymentForm/PaymentForm.tsx:170-175 | A first failure mentioning "Invalid" or "validation" ends the call after one submission with that error. |
| PaymentForm.RetryableFailuresUseEveryAttempt | src/components/checkout/PaymentForm/PaymentForm.tsx:154-188 | When every attempt fails retryably, all 3 submissions are made and the last error is reported. |
| PaymentForm.FirstSuccessPostsOnce | src/components/checkout/PaymentForm/PaymentForm.tsx:156-165 | A first successful reply means exactly one submission and a success. |
| PaymentForm.PaymentController.constructor | src/components/checkout/PaymentForm/PaymentForm.tsx:30-36 | Idle, with no message, retry count 0, the flag clear, the card not ready and a first fresh key. |
| PaymentForm.PaymentController.InitializePayments | src/components/checkout/PaymentForm/PaymentForm.tsx:58-83 | A loaded card makes the form ready. A failure sets the error state and "Failed to load payment form. Please refresh the page.". |
| PaymentForm.PaymentController.SubmitWithRetries | src/components/checkout/PaymentForm/PaymentForm.tsx:152-185 | The loop returns the last reply's result. It submits the same request, with the same key, once per attempt. It records the waits `BackoffSchedule(n-1)` and sets `retryCount` to the last retry number. |
| PaymentForm.PaymentController.Fail | src/components/checkout/PaymentForm/PaymentForm.tsx:189-202 | Sets the error state and message, reports it once, clears the flag and replaces the key with a fresh one. |
| PaymentForm.PaymentController.HandlePayment | src/components/checkout/PaymentForm/PaymentForm.tsx:125-203 | While a payment is attempted or in flight, or after a success, nothing changes. Without a card or an address, only the "Payment form not ready" message is set. Otherwise it tokenises once and every submission carries the starting key. On success it enters the success state, keeps the flag and reports once. On failure it enters the error state, reports once, clears the flag and takes a fresh key. |
| PaymentForm.PaymentController.HandleRetry | src/components/checkout/PaymentForm/PaymentForm.tsx:205-211 | Idle, no message, retry count 0, the flag clear, and a key different from the old one. |
| PaymentForm.SecondClickAfterSuccess | src/components/checkout/PaymentForm/PaymentForm.tsx:127-130 | After a success, another click submits nothing and reports nothing, so there is at most one charge per form. |
| PaymentRoute.ClientIp | src/app/api/checkout/process-payment/route.ts:64-68 | The first comma segment of `x-forwarded-for` when non-empty, else `x-real-ip` when non-empty, else "unknown". Never empty. |
| PaymentRoute.ClientIpTakesFirstHop | src/app/api/checkout/process-payment/route.ts:67 | A proxy chain resolves to its first hop. |
| PaymentRoute.EmptyFirstHopFallsThrough | src/app/api/checkout/process-payment/route.ts:67 | An empty first segment falls through to `x-real-ip`, then to "unknown". |
| PaymentRoute.CeilDiv | src/app/api/checkout/process-payment/route.ts:101 | `Math.ceil(a / d)` for a positive divisor. |
| PaymentRoute.SchemaAmountBounds | src/app/api/checkout/process-payment/route.ts:15-19 | A valid request's amount is a whole number of cents from 1 to 1,000,000. |
| PaymentRoute.StoredAddress | src/app/api/checkout/process-payment/route.ts:174-176 | The stored address is the validated one, without the fields the schema strips. |
| PaymentRoute.RecordFor | src/app/api/checkout/process-payment/route.ts:168-185 | The record carries the provider's ids and the validated address. Without client totals it stores total `amount/100` in the request currency, with the other parts 0. Without items it stores none. |
| PaymentRoute.AfterCharge | src/app/api/checkout/process-payment/route.ts:144-306 | The provider is charged once. COMPLETED stores the record and answers 200 with the ids and the remaining quota. Another status answers 400 "Payment could not be completed". A provider error answers 500 with its first detail. Anything else thrown answers 500 "An unexpected error occurred". |
| PaymentRoute.Decide | src/app/api/checkout/process-payment/route.ts:92-307 | A denied client gets 429 with `Retry-After = ceil((resetAt-now)/1000)` and nothing else happens. An unreadable body gives 500, a schema failure 400 "Invalid payment data", and under 100 cents 400. The charge is made iff the request is allowed, valid and at least 100 cents. A record is stored iff the answer is 200. |
| PaymentRoute.StoredUnderBothKeys | src/app/api/checkout/process-payment/route.ts:187-191 | The record is stored under the idempotency key, and also under the order id iff one is present; other keys are unchanged. |
| PaymentRoute.Post | src/app/api/checkout/process-payment/route.ts:92-307 | The limiter is charged before the body is looked at, so invalid requests count. The response and charge are `Decide`'s. The order store changes only on success, as `StoreAfter`, and then one 24-hour expiry is scheduled for each key the record went under, as `ExpiriesAfter`; otherwise nothing is scheduled. |
| PaymentRoute.ExpiryForEachStoredKey | src/lib/order-store.ts:49-56 | After a completed payment the idempotency key, and the order id when there is one, each have exactly one more pending expiry; no other key gains one. |
| PaymentRoute.TooManyAttemptsIsRetried | src/app/api/checkout/process-payment/route.ts:113 | The rate-limit message mentions neither "Invalid" nor "validation", so the form retries it. |
| PaymentRoute.BelowMinimumIsRetried | src/app/api/checkout/process-payment/route.ts:137 | The minimum-amount message is retried by the form. |
| PaymentRoute.NotCompletedIsRetried | src/app/api/checkout/process-payment/route.ts:230 | The not-completed message is retried by the form. |
| PaymentRoute.InvalidPaymentDataStops | src/app/api/checkout/process-payment/route.ts:254 | The schema-failure message stops the form's retries. |
| PaymentRoute.ClientSucceedsIffStored | src/app/api/checkout/process-payment/route.ts:187-214 | The form sees a success iff the route stored an order. |
| PaymentRoute.SchemaRejectionStops | src/app/api/checkout/process-payment/route.ts:238-258 | A schema rejection is decisive for the form: it does not retry. |
| PaymentRoute.RateLimitRetried | src/app/api/checkout/process-payment/route.ts:100-124 | A 429 is not decisive: the form retries it. |
| PaymentRoute.RefusalDecidedByMessage | src/app/api/checkout/process-payment/route.ts:227-233 | Whether a refusal stops the form depends only on its message. |
| PaymentRoute.RefusalsRetried | src/app/api/checkout/process-payment/route.ts:132-141 | The below-minimum and not-completed refusals are retried. |
| PaymentRoute.FormOrdersStoreChargedTotal | src/app/api/checkout/process-payment/route.ts:173-183 | The form sends no order details, so a stored order has no items and totals of `amount/100` in the request currency, with the amount between 100 and 1,000,000. |
| PaymentRoute.SameKeySameSlot | src/app/api/checkout/process-payment/route.ts:144-188 | Two completed charges with one idempotency key send the same charge to the provider and land in the same store slot. |
| OrderDetailsRoute.LookupKey | src/app/api/checkout/order-details/route.ts:32 | The order id when it is truthy, else the key; never empty. |
| OrderDetailsRoute.RecordFromPayment | src/app/api/checkout/order-details/route.ts:51-79 | The provider's ids, no items, and total `amount/100` or 0 in the payment's currency or "USD", with the other parts 0. |
| OrderDetailsRoute.Lookup | src/app/api/checkout/order-details/route.ts:32-98 | A store hit answers from the store without asking the provider. On a miss the provider is asked, for the order id, exactly when an order id is given. Only a COMPLETED payment is returned; anything else is a 404 "Order not found". |
| OrderDetailsRoute.RespondAsWritten | src/app/api/checkout/order-details/route.ts:13-111 | As written, a request missing either parameter is a 400, because the missing parameter arrives as `null`. A request that passes goes to the lookup. |
| OrderDetailsRoute.Respond | src/app/api/checkout/order-details/route.ts:13-111 | The corrected route answers 400 iff neither parameter is truthy or the key is not a UUID; otherwise it answers with the lookup. |
| OrderDetailsRoute.KeyOnlyLinkRejectedAsWritten | src/app/api/checkout/order-details/route.ts:25-29 | A link with only a stored key gets 400 as written. The corrected route returns the stored order. |
| OrderDetailsRoute.OrderIdOnlyLinkRejectedAsWritten | src/app/api/checkout/order-details/route.ts:25-29 | A link with only an order id gets 400 as written. The corrected route looks it up. |
| OrderDetailsRoute.BothParametersAgree | src/app/api/checkout/order-details/route.ts:13-20 | With both parameters present, the written and the corrected route agree. |
| OrderDetailsRoute.StoredOrderFoundByKey | src/app/api/checkout/order-details/route.ts:32-40 | An order stored under a UUID key is found by that key alone, without asking the provider. |
| OrderDetailsRoute.Get | src/app/api/checkout/order-details/route.ts:22-111 | Reads the store and answers `Respond` on its contents. |
| PaymentValidation.MinFor | src/lib/validation/payment-validation.ts:15-27 | A positive minimum; unknown currencies get 100. |
| PaymentValidation.MaxFor | src/lib/validation/payment-validation.ts:21-28 | At least the minimum; unknown currencies get 1,000,000. |
| PaymentValidation.ValidatePaymentAmount | src/lib/validation/payment-validation.ts:11-45 | Valid iff `min <= amount <= max` for the currency. The minimum is checked first, so a low amount reports only the minimum. |
| PaymentValidation.ValidatePaymentAmountAsWritten | src/lib/validation/payment-validation.ts:27-42 | Agrees with the corrected check on every name that is not inherited from `Object.prototype`. An inherited name makes both comparisons false and the amount valid. |
| PaymentValidation.AmountGuardAcceptsPrototypeName | src/lib/validation/payment-validation.ts:27-42 | As written, 1 cent in "constructor" is valid; the corrected check reports the 100 minimum. |
| PaymentValidation.AmountBoundsPerCurrency | src/lib/validation/payment-validation.ts:15-28 | MXN accepts 2000 to 20,000,000. USD, CAD and unknown currencies accept 100 to 1,000,000. |
| PaymentValidation.Select | src/lib/validation/payment-validation.ts:54-86 | Keeps only messages of failing checks, and is empty iff nothing fails; every failing check's message is in it. Order and multiplicity follow from `SelectAppend`, `SelectKeepsOrder` and `SelectOnce`. |
| PaymentValidation.SelectExact | src/lib/validation/payment-validation.ts:54-86 | With distinct messages, a message is reported iff its check fails. |
| PaymentValidation.SelectAppend | src/lib/validation/payment-validation.ts:54-86 | Selection commutes with concatenation, so the messages are reported check by check, in order. |
| PaymentValidation.SelectKeepsOrder | src/lib/validation/payment-validation.ts:54-86 | When checks i < j both fail, message i comes before message j. |
| PaymentValidation.SelectOnce | src/lib/validation/payment-validation.ts:54-86 | With distinct messages, a failing check's message occurs exactly once and a passing check's never. |
| PaymentValidation.ValidateShippingAddress | src/lib/validation/payment-validation.ts:50-92 | Valid iff there are no errors, iff none of the eight field checks fails; at most 8 messages. `AddressMessageOnce` and `AddressErrorsInFieldOrder` give one message per failing field, in field order. |
| PaymentValidation.AddressMessagesDistinct | src/lib/validation/payment-validation.ts:56-86 | The eight messages are distinct. |
| PaymentValidation.AddressMessagePerField | src/lib/validation/payment-validation.ts:56-86 | Each field's message is reported iff that field is missing, blank after trimming, or (email, country) malformed. |
| PaymentValidation.AddressMessageOnce | src/lib/validation/payment-validation.ts:56-86 | A failing field's message occurs exactly once among the errors, and a passing field's not at all. |
| PaymentValidation.AddressErrorsInFieldOrder | src/lib/validation/payment-validation.ts:56-86 | The messages of two failing fields appear in the order the fields are checked. |
| PaymentValidation.SpacesAreBlank | src/lib/validation/payment-validation.ts:56-58 | A first name of one space is reported missing, though it passes the schema's length 1..50. |
| PaymentValidation.SanitizeString | src/lib/validation/payment-validation.ts:105-107 | At most `maxLength` and at most the input length, with no '<' or '>'. Every other character of the trimmed, cut input is kept as often as it occurs there. |
| PaymentValidation.SanitizeKeepsPlainText | src/lib/validation/payment-validation.ts:105-107 | Already trimmed text without angle brackets, within the limit, is unchanged, inner spaces included. |
| JsStrings.RemoveCharsOne | src/lib/validation/payment-validation.ts:106 | `replace(/[<>]/g, "")` on one character keeps it iff it is not a bracket. |
| JsStrings.RemoveCharsAppend | src/lib/validation/payment-validation.ts:106 | The removal works piece by piece over a concatenation, so the kept characters stay in order. |
| PaymentValidation.SanitizeKeepsOrder | src/lib/validation/payment-validation.ts:105-107 | Splitting the trimmed, cut input anywhere, the result is each part without its angle brackets, in order. |
| PaymentValidation.SanitizeStripsPadding | src/lib/validation/payment-validation.ts:105-107 | Outer white space is removed and inner white space kept (" John Smith " gives "John Smith"). |
| PaymentValidation.SanitizeDropsTagBrackets | src/lib/validation/payment-validation.ts:105-107 | The brackets of a tag are removed and the text between them kept ("a<b>" gives "ab"). |
| PaymentValidation.ValidKeyPassesSchema | src/lib/validation/payment-validation.ts:112-116 | A key passing the version-4 check also passes the route's UUID schema. |
| PaymentValidation.SchemaAdmitsOtherVersions | src/lib/validation/payment-validation.ts:112-116 | A version-1 UUID that the schema accepts fails this check. |
| PaymentValidation.EmailDomain | src/lib/validation/payment-validation.ts:148 | Defined iff the address has an '@'. |
| PaymentValidation.DetectSuspiciousPayment | src/lib/validation/payment-validation.ts:121-171 | Suspicious iff a reason is given. There is one reason per failing check and nothing else, in the order amount, e-mail, currency. The high-amount reason appears iff the amount exceeds the currency's limit. The disposable reason appears iff the lower-cased domain is listed. The mismatch reason appears iff the country's expected currency exists and differs. |
| PaymentValidation.OwnCurrencyNeverMismatched | src/lib/validation/payment-validation.ts:154-165 | A supported country paying in its own currency is never a mismatch; paying in EUR is. |
| PaymentValidation.UnknownCountryMismatch | src/lib/validation/payment-validation.ts:160-165 | An unknown country is never a mismatch. The inherited name "toString" always is. |
| PaymentValidation.FirstKeywordHit | src/lib/validation/payment-validation.ts:183-205 | The text of the first keyword found, or the fallback when none is found. |
| PaymentValidation.FormatPaymentError | src/lib/validation/payment-validation.ts:176-209 | A string is returned as is and a non-error gives the generic text. An Error is mapped by the first lower-case keyword hit (insufficient funds, card declined, expired, invalid, network), else its own message. |
| PaymentValidation.DeclinedBeforeExpired | src/lib/validation/payment-validation.ts:189-195 | "card declined" wins over "expired" when both occur. |
| PaymentValidation.FallbackUnused | src/lib/validation/payment-validation.ts:183-205 | When some keyword occurs, the fallback does not matter. |
| PaymentValidation.KeywordsIgnoreCase | src/lib/validation/payment-validation.ts:183 | For an ASCII message containing a keyword, upper-casing it does not change the mapped text. |
| PaymentValidation.UnmatchedMessagePassesThrough | src/lib/validation/payment-validation.ts:205 | A message without any keyword is returned unchanged. |
| EmailPattern.SimpleEmailParts | src/lib/validation/payment-validation.ts:97-100 | `local@domain.tld` with non-empty parts and no whitespace or extra '@' matches the e-mail regex. |
| EmailPattern.NoAtNoEmail | src/lib/email.ts:139-142 | A string without '@' is never a valid e-mail. |
| SquarePayments.MethodCode | src/lib/square/payments.ts:15-20 | Each payment method has a non-empty code. |
| SquarePayments.TokenizeOutcome | src/lib/square/payments.ts:132-165 | An unregistered method fails with "Payment method m not found" without asking the SDK. Otherwise it succeeds iff the status is "OK" and a token exists, returning it. Any other reply is "Tokenization failed" with the SDK's errors. A thrown error becomes a failure with its message or "Unknown error". |
| SquarePayments.SquarePaymentsManager.constructor | src/lib/square/payments.ts:49-51 | Not initialised, with no methods. |
| SquarePayments.SquarePaymentsManager.Initialize | src/lib/square/payments.ts:56-63 | Passes on the SDK's outcome; a success initialises the manager. |
| SquarePayments.SquarePaymentsManager.Create | src/lib/square/payments.ts:68-127 | Not initialised: fails with "Square Payments not initialized". An SDK error is passed on. Otherwise the method is registered. |
| SquarePayments.SquarePaymentsManager.TokenizePayment | src/lib/square/payments.ts:132-165 | The result is `TokenizeOutcome` for whether the method is registered. |
| SquarePayments.SquarePaymentsManager.Destroy | src/lib/square/payments.ts:170-180 | No methods remain and the manager is no longer initialised. |
| SquarePayments.SquarePaymentsManager.HasPaymentMethod | src/lib/square/payments.ts:185-187 | Holds iff the method is registered. |
| SquarePayments.TornDownManager | src/lib/square/payments.ts:69-71 | After `destroy`, creating a card fails with "not initialized", tokenising reports the method missing, and no method is registered. |
| SquarePayments.Segment | src/lib/square/payments.ts:201-206 | "field: message" when a field is given, else the message. |
| SquarePayments.Segments | src/lib/square/payments.ts:200-206 | One segment per error, in order. |
| SquarePayments.FormatSquareErrors | src/lib/square/payments.ts:193-208 | Undefined or `[]` gives "An unknown error occurred"; one error gives its segment. |
| SquarePayments.OneSegmentPerError | src/lib/square/payments.ts:200-207 | With comma-free texts, splitting the result at ',' gives each error's segment in order, the later ones after the ", " separator's space. |
| SquarePayments.ValidateAmount | src/lib/square/payments.ts:213-234 | Amounts of 0 or less, and amounts above 999999.99, are rejected with their messages. Valid iff within (0, 999999.99] with at most two decimals, in exact arithmetic; the source's binary floating-point check also rejects some two-decimal amounts such as 0.07. |
| SquarePayments.CentAmountsAccepted | src/lib/square/payments.ts:213-234 | Every whole number of cents from 1 to 99,999,999 is valid, in exact arithmetic. |
| LanguageState.ParseLanguage | src/shared/i18n/LanguageProvider.tsx:40 | Recognises exactly "en", "es" and "fr", mapping back to the same code. |
| LanguageState.CodeRoundTrip | src/shared/i18n/LanguageProvider.tsx:40 | Every language's code parses back to it. |
| LanguageState.Initial | src/shared/i18n/LanguageProvider.tsx:28-29 | Starts in Spanish, not hydrated, before the effect has run. |
| LanguageState.Restore | src/shared/i18n/LanguageProvider.tsx:32-48 | Marks the state hydrated. A readable stored "en"/"es"/"fr" becomes the language. A failing read or an invalid value leaves it alone. |
| LanguageState.CommitAsWritten | src/shared/i18n/LanguageProvider.tsx:32-49 | As written, the effect runs again whenever the language differs from the one it last ran with. |
| LanguageState.Commit | src/shared/i18n/LanguageProvider.tsx:32-48 | The corrected effect runs exactly once, after hydration. |
| LanguageState.Switch | src/shared/i18n/LanguageProvider.tsx:51-63 | Always sets the language. Storage and the document language are written only when hydrated and the write does not throw. |
| LanguageState.FirstCommitRestores | src/shared/i18n/LanguageProvider.tsx:32-48 | After the first effect the state is hydrated and holds the stored language when it is valid and readable, else Spanish. The written and corrected effects agree here. |
| LanguageState.RestoreSettles | src/shared/i18n/LanguageProvider.tsx:38-44 | Restoring twice gives the same language as restoring once. |
| LanguageState.LastSetIsStored | src/shared/i18n/LanguageProvider.tsx:55-58 | After a sequence of choices while hydrated, the language, storage and document language hold the last choice. |
| LanguageState.PersistedChoiceKept | src/shared/i18n/LanguageProvider.tsx:32-63 | A choice that was persisted survives the effect. |
| LanguageState.UnpersistedChoiceReverted | src/shared/i18n/LanguageProvider.tsx:32-63 | As written, a choice whose write threw is reverted by the re-run effect to the stored language. The corrected effect keeps it. |
| LanguageState.FrenchChoiceLostAsWritten | src/shared/i18n/LanguageProvider.tsx:32-63 | Concrete case: stored "en", choose French while writes fail. As written it shows English again; corrected, French stays. |
| LanguageState.UseLanguage | src/shared/i18n/LanguageProvider.tsx:92-98 | Fails with the provider message iff there is no context; otherwise it returns the context. |
| LanguageState.LanguageProvider.constructor | src/shared/i18n/LanguageProvider.tsx:28-29 | Starts in the initial state. |
| LanguageState.LanguageProvider.RunEffects | src/shared/i18n/LanguageProvider.tsx:32-48 | The new state is `Commit(old state)`. |
| LanguageState.LanguageProvider.SetLanguage | src/shared/i18n/LanguageProvider.tsx:51-63 | The new state is `Switch(old state, language)`. |
| LanguageState.LanguageProvider.Context | src/shared/i18n/LanguageProvider.tsx:75-83 | Exposes the current language and hydration flag. |
| ContactEmail.MessagesDistinct | src/lib/email.ts:117-131 | The five validation messages are distinct. |
| ContactEmail.ErrorsPerCheck | src/lib/email.ts:114-137 | Empty iff every check passes. Each message appears iff its condition holds: a blank field's "required", an invalid non-blank e-mail's message, or a short non-blank message's "at least 10 characters". There is one error per failing field and nothing else, in name, e-mail, message order. |
| ContactEmail.ValidateContactForm | src/lib/email.ts:114-137 | Valid iff there are no errors; at most three errors. |
| ContactEmail.ContactFormErrors | src/lib/email.ts:114-137 | Valid iff name, e-mail and message are non-blank after trimming, the e-mail matches, and the trimmed message has at least 10 characters. Each message is tied to its field in both directions. The number of errors is the number of failing fields, and they come in name, e-mail, message order. |
| ContactEmail.PaddedAddressMalformed | src/lib/email.ts:139-142 | An address with a leading space is non-blank but fails the regex. |
| ContactEmail.PaddedAddressReported | src/lib/email.ts:121-125 | Such an address gets only the "valid email" error, not "required". |
| ContactEmail.CompanyLine | src/lib/email.ts:214 | The company line is empty iff the company is not truthy. |
| ContactEmail.ProjectLine | src/lib/email.ts:215 | The project line is empty iff the project is not truthy. |
| ContactEmail.TextBody | src/lib/email.ts:208-223 | The trimmed text starts with the heading and ends with the footer's full stop. |
| ContactEmail.GenerateEmailText | src/lib/email.ts:208-223 | Trimming the template removes exactly its leading line break and trailing indentation, leaving the body itself. |
| ContactEmail.CompanyShownWhenGiven | src/lib/email.ts:214 | A truthy company appears as "Company/Production: …" on its own line. |
| ContactEmail.ProjectShownWhenGiven | src/lib/email.ts:215 | A truthy project appears as "Project Type: …" on its own line. |
| ContactEmail.EmptyOptionalsOmitted | src/lib/email.ts:214-215 | Empty company and project strings give the same text as absent ones. |
| ContactEmail.HtmlMessage | src/lib/email.ts:195 | No newline remains; a message without newlines is unchanged. |
| ContactEmail.HtmlMessageLines | src/lib/email.ts:195 | Each newline becomes `<br>`. |
| Cdn.UrlsIgnoreTransformations | src/lib/cdn.ts:50-142 | Image and video URLs are the public id whatever the transformations. The thumbnail is always "/placeholder-video-thumbnail.jpg". |
| Cdn.DecimalRoundTrip | src/lib/cdn.ts:156 | The decimal rendering of a width reads back as that width. |
| Cdn.GetResponsiveImageSrcSet | src/lib/cdn.ts:145-160 | No sizes give "", one size gives its single entry. |
| Cdn.OneEntryPerSize | src/lib/cdn.ts:145-160 | One "publicId {w}w" entry per size, in size order, joined by ", ". |
| Cdn.DefaultSrcSetHasFiveEntries | src/lib/cdn.ts:147 | The default sizes give five entries. |
| Cdn.ExtractPublicIdFromUrl | src/lib/cdn.ts:200-206 | The URL itself, or a non-empty text without '/' or '.'. |
| Cdn.ExtractsFileStem | src/lib/cdn.ts:205 | The last path segment's text before its first '.'. |
| Cdn.PlainNameIsItsOwnId | src/lib/cdn.ts:205 | A name without '/' or '.' is its own id. |
| Cdn.HostsRecognised | src/lib/cdn.ts:209-214 | Any URL containing "cloudinary.com" or "your-cdn-domain.com" is a CDN URL. |
| Cdn.CdnUrlIffHostOccurs | src/lib/cdn.ts:209-214 | A URL is a CDN URL iff "cloudinary.com" or "your-cdn-domain.com" occurs in it at some position. |
| Cdn.OtherUrlsRejected | src/lib/cdn.ts:209-214 | A URL that cannot contain either host is not a CDN URL. |
| Projects.FindById | src/lib/projects.ts:69-73 | The first project with the id, or nothing exactly when none has it. |
| Projects.Filter | src/lib/projects.ts:75-83 | Exactly the kept projects, as a subsequence of the input, in order. |
| Projects.FilterOne | src/lib/projects.ts:75-83 | One project is kept iff the predicate holds for it. |
| Projects.FilterAppend | src/lib/projects.ts:75-83 | Filtering a concatenation is the concatenation of the filtered parts, so order and duplicates are kept. |
| Projects.CategoryQuery | src/lib/projects.ts:80-83 | A project is returned iff it has the category, in the catalogue's order. |
| Projects.SampleQueries | src/lib/projects.ts:6-83 | Id "1" is the first project and id "3" is absent. Both projects are featured. "film" gives the first project only and "theater" gives none. |

## Left out

- Timers: the rate limiter's `setInterval` cleanup, the order store's 24-hour `setTimeout` and the form's backoff sleeps. They are explicit steps (`RateLimiter.Cleanup`, `OrderStore.Expire`) or recorded delays, not real time.
- External calls: the Square SDK and server client, `fetch`, script loading, environment variables and `crypto.randomUUID`. Their outcomes are parameters; a fresh UUID is any key not used before.
- Floating point: money is an exact real and amounts in minor units are integers. Binary rounding of tax amounts, `Math.round(total * 100)` and the decimal-place check in `square/payments.ts` are therefore exact here.
- Formatting: `Intl.NumberFormat`, `toFixed`, `estimateDeliveryDate` and `formatTaxRate`, which need number formatting or dates. `formatShippingRate` returns a label (free, or price and currency) instead of a formatted string.
- PaymentValidation.ValidatePaymentAmount: returns which bound failed, with its amount and currency, instead of the `toFixed` message text.
- String lengths in the zod schemas are counted in characters, not UTF-16 code units.
- zod's `uuid()` and `email()` are the zod 3 regular expressions; other zod versions differ.
- Logging, the `X-Processing-Time` header, and the `details` array of validation errors are not modelled. The rate-limit headers are carried in the response body: `Retry-After` as `retryAfter`, `X-RateLimit-Reset` as `RateLimited.resetAt`, and the success response's `X-RateLimit-Remaining` as `Paid.remaining`.
- Async interleaving: each store action and route call runs to completion. Only the payment form's `paymentAttempted` guard against a second click is modelled.
- The checkout state's `order` field, which no core operation writes, and the send functions of `email.ts`. The full HTML template of `generateEmailHTML` is also left out; only its message conversion is modelled.
- The CDN builders' `transforms` arrays, whose result is discarded.
- The Zustand persist middleware and `localStorage`. The persisted value is a JSON value given to `Rehydrate`, and `localStorage` failures are boolean inputs.
- SquarePayments.FormatSquareErrors: for two or more errors, the joined text is characterised only through `OneSegmentPerError`, which assumes texts without commas.
- Cdn.GetResponsiveImageSrcSet: widths are whole non-negative numbers, whereas `number[]` also admits fractional and negative ones.
- Cdn.GetResponsiveImageSrcSet: for two or more sizes, the joined text is characterised only through `OneEntryPerSize`, which assumes a public id without commas.
- Taxes.GetTaxInfo: its own contract states the rate and the name's origin. Full agreement with `calculateTax` (rate, name, description) is stated by `GetTaxInfoAgreesWithCalculateTax` for a non-empty state only.
- DetectSuspiciousPayment and the availability and tax guards keep the inherited-name behaviour of `obj[key]`. Only the guards get corrected versions.
- Taxes.UnitedStatesTax: upper-cases the state with the ASCII mapping only. JavaScript's `toUpperCase` also maps other letters, some into ASCII: "ſc" becomes "SC" (rate 0.06) and "ﬂ" becomes "FL". Here they keep the 0.08 default and the region keeps those letters.
- Taxes.CalculateTax: the same ASCII-only upper-casing of the state or province code.
- Taxes.CanadaTax: the same ASCII-only upper-casing of the province code.
- Taxes.GetTaxRate: the same ASCII-only upper-casing of the state or province code.
- Taxes.GetTaxInfo: the same ASCII-only upper-casing of the state or province code.
- PaymentValidation.FormatPaymentError: keywords are searched in the ASCII-lower-cased message. JavaScript's `toLowerCase` also maps non-ASCII letters, for example "İ" to "i̇".
- PaymentValidation.KeywordsIgnoreCase: holds for ASCII messages only. "ınvalid network" (dotless ı) maps to the network text, but its JavaScript upper-casing "INVALID NETWORK" maps to the invalid-card text.
- PaymentValidation.EmailDomain: lower-cases the domain with the ASCII mapping only.
- PaymentValidation.DetectSuspiciousPayment: the disposable-domain test uses that ASCII-only lower-casing.
- CartStore.ValidateProduct: the 200/100/500/50/500 cuts count characters, whereas `slice` counts UTF-16 code units. A character outside the Basic Multilingual Plane counts once here and twice in the source.
- PaymentValidation.SanitizeString: `maxLength` counts characters, not UTF-16 code units.
- ContactEmail.ValidateContactForm: the 10-character minimum of the message counts characters, not UTF-16 code units.
- CartTypes.IsValidCartItem: the 200/100/500/50/500 length bounds count characters, whereas `.length` counts UTF-16 code units. So CartStore.HydrateItems, CartStore.ValidatePersistedState and CartStore.Cart.Rehydrate keep a stored entry whose title is 150 copies of "😀" (300 code units), which the source drops.
- CartStore.HydrateItems: the bounds of CartTypes.IsValidCartItem count characters, not UTF-16 code units.
- CartStore.ValidatePersistedState: the same character count, through HydrateItems.
- CartStore.Cart.Rehydrate: the same character count, through ValidatePersistedState.
- CartStore.Cart.Rehydrate: rehydration does not merge duplicate ids, as in the source, so `addItem`, `removeItem` and `updateQuantity` keep unique ids only when they held before; every item stays well formed in any case.

## Findings

| source | as written | input that shows it | evidently intended | confidence | as-written member | corrected member |
|---|---|---|---|---|---|---|
| src/app/api/checkout/order-details/route.ts:25-29 | `searchParams.get` returns `null` for a missing parameter, and `z.string().optional()` rejects `null`, so any request missing either parameter is a 400 | `?key=<stored uuid>` with no `orderId` | a request with either parameter is looked up | not executed; high | OrderDetailsRoute.KeyOnlyLinkRejectedAsWritten | OrderDetailsRoute.StoredOrderFoundByKey |
| src/shared/store/checkoutStore.ts:158-160 | `set(initialState)` merges, so shipping, tax, payment and error survive a reset | a state with a shipping address, then `reset()` | reset returns exactly the initial state | not executed; high | CheckoutStore.ResetKeepsAddress | CheckoutStore.ResetOn |
| src/shared/i18n/LanguageProvider.tsx:49 | the restore effect depends on `[language]`, so it re-reads storage after each change and reverts a choice that could not be stored | stored "en", then `setLanguage("fr")` while writes throw | the stored preference is restored once, after hydration | not executed; medium | LanguageState.FrenchChoiceLostAsWritten | LanguageState.Commit |
| src/lib/shipping/calculator.ts:130-132 | `country in SHIPPING_RATES` is true for `Object.prototype` names | `isShippingAvailable("toString")` | available iff the country has rates | not executed; high | Shipping.AvailabilityGuardAcceptsPrototypeName | Shipping.AvailabilityMatchesCalculator |
| src/lib/taxes/calculator.ts:207-209 | `country in TAX_RATES` is true for `Object.prototype` names | `isTaxCalculationSupported("constructor")` | supported iff `calculateTax` succeeds | not executed; high | Taxes.TaxGuardAcceptsPrototypeName | Taxes.TaxGuardMatchesCalculator |
| src/lib/validation/payment-validation.ts:27-28 | `MIN_AMOUNTS[currency]` reads an inherited function, which compares false both ways | `validatePaymentAmount(1, "constructor")` is valid | unknown currencies get the 100 / 1,000,000 defaults | not executed; medium | PaymentValidation.AmountGuardAcceptsPrototypeName | PaymentValidation.AmountBoundsPerCurrency |
