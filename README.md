# Cart store model

A Dafny model of the shopping-cart slice of the client-side store in
`src/store/user.store.ts`. The store holds a cart (lines, coupon, shipping
option, subtotal, total price, terms flag), the catalogs of discounts,
coupons, products and shipping options, and a `totalDiscount` number. Each
command reads the current state and overwrites some of its fields. Two pure
helpers price the cart: `calculateSubTotal` and `calculateTotalPrice`.

Layout, one module per concern:

- `cart_types.dfy`: `CartTypes`, the data shapes of `src/types/*.tsx`, and
  `Lookup`, which models `Array.prototype.find` and `findIndex`.
- `pricing.dfy`: `Pricing`, with the per-line discount rule, the subtotal, the
  coupon adjustment, the shipping cost and the total price, plus their lemmas.
- `item_order.dfy`: `ItemOrder`, the most-recent-first order. `SortDesc` is a
  stable insertion sort written as a function. `SortByAddedDesc` sorts an
  array in place and is proved equal to it.
- `cart_lines.dfy`: `CartLines`, the callbacks each command passes to `map`,
  `filter`, `find` and `some`. The two `map`s that also add to a running
  `totalDiscount` are loop methods (`IncrementMatching`, `RecountMatching`).
- `cart_store.dfy`: `CartStore`. The class `CartSlice` has the store's fields
  and one method per command.

Representation choices:

- Money is an exact `real`, so there is no floating-point rounding.
- A line count is an `int`; the source does no validation.
- A JavaScript `Date` is a `Timestamp` (`nat`).
- `Product.id` is `Option<string>`, because the field is optional.
- `discountCode` is `Single(string) | Many(seq<string>)`. `addToCart` compares
  codes with `===`, so only a `Single` code can match. `updateProductCount`
  compares with `==` (line 152), which turns an array into its comma-joined
  string first; `LooseCodeMatch` models that. `applyDiscount` only accepts
  arrays (`Array.isArray`).
- The clock reads (`new Date()` in `addToCart` and in `calculateTotalPrice`)
  become a `now` argument on every command that uses them.

The invariant `CartSlice.Valid()` holds for every line and is kept by every
command:

- `total` is the unit price times `count`;
- `discountedTotal` is `total` minus the line's own discount;
- product ids are unique;
- lines are ordered most recent first;
- `totalPrice` equals `calculateTotalPrice` of the lines and the coupon.

`SubTotalCurrent()` (the subtotal equals `calculateSubTotal` of the lines) is
re-established by every command that recomputes the subtotal. `applyDiscount`
does not recompute it (see `ApplyDiscountStaleSubTotal`).

These quirks are kept as written and stated as properties:

- `removeFromCart` subtracts the discount of the first line of a different
  product (inverted predicate).
- `applyDiscount` uses a fixed 20 percent rate and appends the discount it
  creates to the catalog even when the code is invalid.
- `addToCart` and `updateProductCount` overwrite `totalDiscount` instead of
  adding to it. With an unknown id, `updateProductCount` sets it to 0.
- `calculateTotalPrice` computes a shipping cost and never uses it. As a
  result, `setShipping` never changes the total price.
- Catalog discounts are matched by code only; their `available` flag is never
  consulted. Coupons are matched by code and `available`.

Two behaviours a reader might expect otherwise:

- `totalDiscount` holds the discount of the last `addToCart` or
  `updateProductCount` call, not a running sum over the session.
- Catalog discounts are looked up by equality of codes (strict in
  `addToCart`, loose in `updateProductCount`), not by membership of the
  catalog code in a product's list of codes.

## Model

| member | source | states |
|---|---|---|
| `Lookup.FindIndex` | src/store/user.store.ts:71 | the index found satisfies the predicate and no earlier element does; no index means no element satisfies it |
| `Lookup.Find` | src/store/user.store.ts:251 | the element found is the first one satisfying the predicate; nothing is found exactly when no element satisfies it |
| `Pricing.ShippingCost` | src/store/user.store.ts:361-372 | 0 with no shipping option; the option's price when it has no discount rule; never negative for a non-negative price |
| `Pricing.TotalPrice` | src/store/user.store.ts:350-375 | the total is never negative, is never below the coupon-adjusted subtotal, and is either that amount or 0 |
| `Pricing.SubTotalEmpty` | src/store/user.store.ts:379-381 | an empty cart has subtotal 0 |
| `Pricing.SubTotalSnoc` | src/store/user.store.ts:379-381 | appending a line adds its discounted total if it is checked and nothing if it is not |
| `Pricing.SubTotalConcat` | src/store/user.store.ts:379-381 | the subtotal of two line lists joined is the sum of their subtotals |
| `Pricing.SubTotalUpdate` | src/store/user.store.ts:379-381 | replacing one line changes the subtotal by the difference of the two lines' contributions |
| `Pricing.SubTotalNoneChecked` | src/store/user.store.ts:379-381 | with no checked line the subtotal is 0 whatever the prices |
| `Pricing.SubTotalAllChecked` | src/store/user.store.ts:379-381 | with every line checked the subtotal is the plain sum of discounted totals |
| `Pricing.TotalPriceIgnoresShipping` | src/store/user.store.ts:361-374 | the shipping option and the day never change the total |
| `Pricing.TotalPriceWithoutCoupon` | src/store/user.store.ts:355-374 | with no coupon or an unavailable one the total is max(subtotal, 0) |
| `Pricing.TotalPriceWithCoupon` | src/store/user.store.ts:355-359 | an available PERCENT coupon gives max(subtotal*(1-amount/100), 0); a FLAT one gives max(subtotal-amount, 0) |
| `Pricing.CouponNeverRaisesPrice` | src/store/user.store.ts:355-374 | a coupon with amount >= 0 (and at most 100 for PERCENT) never raises the total |
| `Pricing.DiscountNeverRaisesLine` | src/store/user.store.ts:83-96 | a non-negative discount never raises a non-negative line total; no discount leaves it unchanged |
| `ItemOrder.SortDescPerm` | src/store/user.store.ts:134 | the sort only reorders: same lines with the same multiplicities |
| `ItemOrder.SortDescSorted` | src/store/user.store.ts:134 | the sorted lines are most recent first |
| `ItemOrder.SortDescOfSorted` | src/store/user.store.ts:134 | lines already in order are left exactly as they are |
| `ItemOrder.SortDescUnique` | src/store/user.store.ts:134 | sorting keeps product ids unique |
| `ItemOrder.SortDescSubTotal` | src/store/user.store.ts:134-141 | sorting does not change the subtotal |
| `ItemOrder.SortDescMembers` | src/store/user.store.ts:134 | every sorted line is a line of the input |
| `ItemOrder.InsertAt` | src/store/user.store.ts:134 | one in-place insertion step places a line after the newer lines of the sorted prefix, leaving the rest of the array alone |
| `ItemOrder.SortByAddedDesc` | src/store/user.store.ts:134 | the in-place sort leaves the array equal to the stable most-recent-first sort of its old contents |
| `ItemOrder.SortedLines` | src/store/user.store.ts:134 | copying the lines into an array and sorting it in place yields exactly the most-recent-first sort of the lines |
| `CartLines.CodeMatchQuirk` | src/store/user.store.ts:77-79 | strict code equality implies loose equality; a one-code array is loosely equal to its code (line 152) but never strictly equal to it; a single code is never offered in the array sense |
| `CartLines.IncrementMatching` | src/store/user.store.ts:76-104 | the merge loop reprices exactly the lines holding the product, and its running discount ends at the sum of those lines' discounts |
| `CartLines.RecountMatching` | src/store/user.store.ts:150-175 | the recount loop reprices exactly the lines holding the id, and its running discount ends at the sum of those lines' discounts |
| `CartLines.BuildAddedItems` | src/store/user.store.ts:69-132 | the lines before the sort are the merged or appended lines, and the discount returned is that of the product's lines only |
| `CartLines.AddExisting` | src/store/user.store.ts:75-104 | a product already in the cart keeps the line count; its line gets count old+count, total amount*(old+count), the strict catalog discount, the requested check mark and `now`; other lines stay |
| `CartLines.AddNew` | src/store/user.store.ts:105-132 | a new product appends exactly one line with count `count`, total amount*count, the first catalog discount whose code strictly equals the product's, and discounted total = total - discount; the old lines come first and are unchanged |
| `CartLines.AddedItemsUnique` | src/store/user.store.ts:71-132 | adding keeps product ids unique; the product is present afterwards and every other line was there before |
| `CartLines.AddedItemsConsistent` | src/store/user.store.ts:82-131 | every added or merged line has total = unit price * count and discounted total = total - its discount |
| `CartLines.RecountSetsCount` | src/store/user.store.ts:150-175 | matching lines get count exactly `count` and are repriced with the loose catalog discount, keeping check mark and timestamp; other lines stay; an unknown id changes nothing |
| `CartLines.RecountedConsistent` | src/store/user.store.ts:150-175 | every recounted line again has total = unit price * count and discounted total = total - its discount |
| `CartLines.MatchedDiscountUnique` | src/store/user.store.ts:69-87 | with unique ids the accumulated discount is that one line's discount: the old `totalDiscount` is not added |
| `CartLines.MatchedDiscountNone` | src/store/user.store.ts:149-160 | when no line holds the id the accumulated discount is 0 |
| `CartLines.Without` | src/store/user.store.ts:196 | the filter never yields a line holding the id and is never longer than the input |
| `CartLines.WithoutMembers` | src/store/user.store.ts:196 | the filter keeps exactly the lines of other products |
| `CartLines.WithoutConcat` | src/store/user.store.ts:196 | filtering a concatenation filters each part |
| `CartLines.WithoutNoMatch` | src/store/user.store.ts:196 | filtering an id no line holds changes nothing |
| `CartLines.WithoutUnique` | src/store/user.store.ts:196 | with unique ids, removal drops exactly the product's line and keeps the others in order |
| `CartLines.WithoutSorted` | src/store/user.store.ts:196 | removal keeps the most-recent-first order |
| `CartLines.WithoutUniqueIds` | src/store/user.store.ts:196 | removal keeps product ids unique |
| `CartLines.WithoutConsistent` | src/store/user.store.ts:196 | removal keeps every remaining line consistent |
| `CartLines.RemovedDiscountInverted` | src/store/user.store.ts:190-195 | when the first line is another product's, its discount is the one subtracted, and that line stays in the cart |
| `CartLines.RemovedDiscountOnlyTarget` | src/store/user.store.ts:190-204 | when every line holds the id, nothing is subtracted and the cart becomes empty |
| `CartLines.RemovedDiscountNeverFromRemoved` | src/store/user.store.ts:190-196 | the line whose discount is subtracted is always a line that stays |
| `CartLines.ToggleUnknown` | src/store/user.store.ts:308-315 | toggling an id no line holds leaves every line unchanged |
| `CartLines.ToggleTwice` | src/store/user.store.ts:308-315 | toggling the same id twice restores every line |
| `CartLines.ToggleSubTotal` | src/store/user.store.ts:306-325 | with unique ids, toggling moves the subtotal down by the line's discounted total if it was checked, up if it was not |
| `CartLines.SetAllCheckedIdempotent` | src/store/user.store.ts:329-331 | every line ends with check mark `check`; doing it twice equals doing it once |
| `CartLines.UncheckAllSubTotal` | src/store/user.store.ts:327-341 | unchecking every line makes the subtotal 0 |
| `CartLines.DiscountItemsEffect` | src/store/user.store.ts:208-236 | a valid code gets a 20 percent discount and each matching line's discounted total becomes 0.8 * total, keeping its product, count, total, check mark and timestamp; an invalid code changes no line; non-matching lines never change |
| `CartLines.DiscountLineConsistent` | src/store/user.store.ts:225-233 | a rewritten line again has discounted total = total - its (new) discount |
| `CartLines.SingleCodesNeverMatch` | src/store/user.store.ts:211-214 | if every product has a single code, no code is valid and no line changes |
| `CartStore.CouponForSpec` | src/store/user.store.ts:251 | the coupon attached is the first with that code that is available; none exactly when there is no such coupon |
| `CartStore.AgreementToggle` | src/store/user.store.ts:342-347 | an absent terms flag toggles to true; once present, two toggles restore it |
| `CartStore.AddPercentScenario` | src/store/user.store.ts:105-141 | two units at 10 with a 10 percent catalog discount give total 20, discounted total 18 and subtotal 18 |
| `CartStore.FlatCouponScenario` | src/store/user.store.ts:355-374 | a FLAT coupon of 10 on subtotal 50 gives total 40 |
| `CartStore.ApplyDiscountStaleSubTotal` | src/store/user.store.ts:238-245 | a valid code moves a line's discounted total from 10 to 8 while the stored subtotal is not recomputed |
| `CartStore.AddedSortedValid` | src/store/user.store.ts:67-145 | after `addToCart` the lines are consistent, have unique ids and are most recent first |
| `CartStore.CartSlice.constructor` | src/store/user.store.ts:35-48 | the store starts with the empty cart, empty catalogs and `totalDiscount` 0 |
| `CartStore.CartSlice.InitializeStore` | src/store/user.store.ts:50-65 | the four catalogs are replaced; the cart and `totalDiscount` stay |
| `CartStore.CartSlice.AddToCart` | src/store/user.store.ts:67-145 | the lines become the sorted merged or appended lines; the subtotal and total are recomputed; `totalDiscount` is this call's discount alone; nothing else changes |
| `CartStore.CartSlice.UpdateProductCount` | src/store/user.store.ts:147-186 | the lines become the recounted lines; the subtotal and total are recomputed; `totalDiscount` is the repriced line's discount only |
| `CartStore.CartSlice.RemoveFromCart` | src/store/user.store.ts:188-206 | the lines become the filtered lines; `totalDiscount` drops by the inverted-predicate line's discount; the totals are recomputed |
| `CartStore.CartSlice.ApplyDiscount` | src/store/user.store.ts:208-246 | the created discount is appended to the catalog; matching lines are rewritten; the total is recomputed; the subtotal keeps its old value |
| `CartStore.CartSlice.ApplyCoupon` | src/store/user.store.ts:248-260 | the cart's coupon becomes the catalog's first available coupon with the code, or none; the total is recomputed with it |
| `CartStore.CartSlice.RemoveCoupon` | src/store/user.store.ts:262-271 | the coupon is dropped and the total becomes max(subtotal of the lines, 0) |
| `CartStore.CartSlice.SetShipping` | src/store/user.store.ts:273-290 | a known code attaches the catalog option; an unknown code leaves the cart unchanged; the total price never changes |
| `CartStore.CartSlice.ClearCart` | src/store/user.store.ts:292-304 | the cart becomes empty; the discount and coupon catalogs are emptied; products, shipping options and `totalDiscount` stay |
| `CartStore.CartSlice.UpdateProductCheck` | src/store/user.store.ts:306-325 | the product's check mark flips; the subtotal and total are recomputed |
| `CartStore.CartSlice.CheckAllItem` | src/store/user.store.ts:327-341 | every line gets the check mark; the subtotal and total are recomputed |
| `CartStore.CartSlice.SetAgreement` | src/store/user.store.ts:342-347 | only the terms flag changes, negated with absent counting as false |

## Left out

- Floating-point rounding: money is an exact `real`.
- Fractional counts: `count` is an `int`.
- Time-zone conversion (`toZonedTime`) and the `Date` object: the clock is a `now` argument and dates are timestamps.
- The extra `shippings: null` key that `initializeStore` merges into the store: nothing reads it.
- The loader's shipping records use `id` rather than `code` (`src/types/acount.type.tsx`); the model takes shipping options with a `code`, as `setShipping` reads them.
- `Cart.id` and `Discount.conditions`: the store never reads or writes them.
- The validity dates and minimum purchases of discounts and coupons, and the coupon's free-shipping threshold: the store never checks them.
- The zod schemas in `src/types`: they are library validators.
- zustand's subscriptions and rendering; only the shallow merge of each `set` is modelled.
- The UI, routing, HTTP calls, the token storage and the tic-tac-toe game: they are not part of the cart store.
