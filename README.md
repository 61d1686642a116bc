# Shop front pricing, cart, coupons and admin forms in Dafny

This project models the business rules of a small React shop front and proves
properties of them. It covers:

- **Pricing engine** (`pricing.dfy`). A product's quantity tiers give the
  largest qualifying discount rate. Any cart line of 10 or more units adds a
  cart-wide 5% bulk rate. The combined rate is capped at 50%. Each line is
  rounded once. An optional coupon then either subtracts a fixed amount
  (floored at 0) or takes off a percentage. `CalculateCartTotal` is the
  imperative loop of `calculateCartTotal`. It is proved equal to the sum of
  the per-line `calculateItemTotal` values followed by the coupon step.
- **Stock helpers** (`stock.dfy`): remaining stock and the "SOLD OUT" label.
- **Cart** (`cart.dfy`): lookup, add (guarded by remaining stock), remove and
  set-quantity over a list of `{product, quantity}` lines. The list updaters
  are pure functions. `CartStore` is a class holding the cart; its methods
  apply the updaters the way the hook's `setCart` calls do, and keep "at most
  one line per product".
- **Coupons** (`coupons.dfy`): a `CouponStore` class holding the coupon list
  and the selected coupon. Add refuses duplicate codes. Delete clears a
  selection with the deleted code. Apply refuses a percentage coupon below a
  current total of 10000.
- **Product catalogue** (`products.dfy`): append under a given id, merge a
  partial update by id, delete by id.
- **Product search** (`search.dfy`): the case-insensitive name/description
  filter on the already-debounced term.
- **Admin forms** (`couponform.dfy`, `productform.dfy`): digit-only numeric
  input, the clamp-on-blur rules, upper-casing of the coupon code, and editing
  the list of discount tiers. Each handler is a function from the form
  record to the next form record.
- `types.dfy` holds the shared records. `seqs.dfy` holds the generic filter
  and its order/uniqueness lemmas. `text.dfy` holds ASCII case mapping,
  substring search, and decimal numerals with `parseInt`.

Modelling choices:

- Money is a whole number of currency units (`int`). Discount rates are
  exact `real`s. `Math.round(x)` is `Floor(x + 1/2)`, which is JavaScript's
  rounding: halves go toward +infinity. This differs from rounding halves
  away from zero only on negative halves.
- The percentage-coupon gate reads the cart total with the currently
  selected coupon already applied, not a coupon-free total: both
  `applyCoupon` copies are given `calculateCartTotal(cart, selectedCoupon)`
  (`src/basic/App.tsx:27-32`, and `cartTotalsAtom` in
  `src/advanced/shared/store/cartTotalsAtom.ts:7-11`).
  `Coupons.CouponStore.ApplyCouponToCart` models that wiring, and
  `Coupons.GateSeesSelectedCoupon` gives a cart subtotal of 15000 on which
  the coupon-applied total and the coupon-free total fall on different
  sides of the gate.
- The two `useCoupons.ts` copies implement the same three operations, and
  `CouponStore` models both. Likewise the two `useProductSearch.tsx` copies
  have the same filter, which `ProductSearch.FilteredProducts` models.
- The blur handlers read the text the field shows (`value === 0 ? '' :
  value`) and parse it back. `Text.FieldTextRoundTrip` proves that parsing
  the shown text gives the stored value, so the blur rules are stated on the
  stored value.
- `Date.now()` ids are passed in as a parameter (`AddProduct`'s `id`).
  Notifications are returned as values (`CartNotice`, `CouponNotice`)
  instead of being shown.

## Model

| member | source | states |
|---|---|---|
| Pricing.Round | src/basic/entities/cart/utils.ts:55 | `Math.round` returns an integer within one half of its argument |
| Pricing.RoundOfInt | src/basic/entities/cart/utils.ts:99-102 | the final rounding of an already whole total leaves it unchanged |
| Pricing.MaxQualifyingRate | src/basic/entities/cart/utils.ts:12-16 | the tier `reduce` returns at least its start value, at least every qualifying rate, and is either the start value or some qualifying tier's rate |
| Pricing.ProductDiscount | src/basic/entities/cart/utils.ts:8-17 | the product discount is non-negative, bounds every qualifying tier's rate, and is 0 or the rate of a qualifying tier (the largest qualifying rate) |
| Pricing.NoQualifyingTier | src/basic/entities/cart/utils.ts:8-17 | when no tier's threshold is met the product discount is 0 |
| Pricing.ProductDiscountMonotone | src/basic/entities/cart/utils.ts:12-16 | more units of a product never lower its tier discount |
| Pricing.HasBulkLine | src/basic/entities/cart/utils.ts:24 | `some` holds iff a line has at least 10 units |
| Pricing.BulkPurchaseDiscount | src/basic/entities/cart/utils.ts:23-26 | the bulk rate is 0.05 iff some line has at least 10 units, and 0 iff none does |
| Pricing.MaxApplicableDiscount | src/basic/entities/cart/utils.ts:33-40 | the applied rate lies in [0, 0.5], never exceeds tier + bulk, and equals tier + bulk whenever below the cap |
| Pricing.DiscountedWithinCap | src/basic/entities/cart/utils.ts:55 | a non-negative amount with at most 50% taken off and rounded lies between its rounded half and itself |
| Pricing.ItemTotal | src/basic/entities/cart/utils.ts:47-56 | for a non-negative line price the line total lies between round(price·qty/2) and price·qty |
| Pricing.HoistedBulkRate | src/basic/entities/cart/utils.ts:70-80 | computing the bulk rate once and passing it in gives exactly `calculateItemTotal` for every line |
| Pricing.ApplyCouponTo | src/basic/entities/cart/utils.ts:86-97 | no coupon leaves the total; an amount coupon gives max(0, total − value); a percentage coupon in [0,100] on a non-negative total gives a result in [0, total] |
| Pricing.PercentageWithinTotal | src/basic/entities/cart/utils.ts:93-95 | taking at most 100% off a non-negative total and rounding stays within [0, total] |
| Pricing.CalculateCartTotal | src/basic/entities/cart/utils.ts:62-103 | the loop's before-total is the sum of line prices, and its after-total is the sum of the per-line `calculateItemTotal` values with the coupon step applied |
| Pricing.SubtotalAfterBounds | src/basic/entities/cart/utils.ts:73-83 | for non-negative prices and quantities the discounted sum lies between 0 and the undiscounted sum |
| Pricing.NoCouponTotalBounds | src/basic/entities/cart/utils.ts:66-102 | without a coupon, 0 ≤ totalAfterDiscount ≤ totalBeforeDiscount |
| Pricing.CouponTotalNonNegative | src/basic/entities/cart/utils.ts:86-97 | with no coupon, an amount coupon, or a percentage of at most 100, the final total is never negative |
| Pricing.CouponTotalBounds | src/basic/entities/cart/utils.ts:86-97 | with a non-negative coupon value (a percentage at most 100), 0 ≤ totalAfterDiscount ≤ totalBeforeDiscount |
| Pricing.EmptyCartTotals | src/basic/entities/cart/utils.ts:66-102 | an empty cart totals {0, 0} with no coupon or any coupon of non-negative value |
| Pricing.TwelveUnitsExample | src/basic/entities/cart/utils.ts:47-83 | 12 units at 1000 with a 10-unit 10% tier: 12000 before, 10200 after (15% off) |
| Pricing.BulkOnlyExample | src/basic/entities/cart/utils.ts:23-26 | 10 units at 1000 without tiers get exactly the 5% bulk discount: 9500 |
| Pricing.CapExample | src/basic/entities/cart/utils.ts:39 | 48% + 5% is capped at 50%; 40% + 5% stays at 45% |
| Pricing.AmountCouponFloorExample | src/basic/entities/cart/utils.ts:88-91 | total 5000 with an amount coupon of 10000 gives 0 |
| Stock.RemainingStock | src/basic/shared/utils/stockUtils.ts:7-15 | remaining + cartQuantity = stock (no clamping), and remaining > 0 iff the cart holds less than the stock |
| Stock.StockStatus | src/basic/shared/utils/stockUtils.ts:23-31 | "SOLD OUT" iff cartQuantity ≥ stock; the empty label iff remaining stock is positive |
| Stock.OneMoreInCart | src/basic/shared/utils/stockUtils.ts:14 | one more unit in the cart is one unit less remaining |
| Cart.FindLine | src/advanced/features/cart/hooks/useCart.ts:25 | `find` fails iff no line has the id, and a found line has that id |
| Cart.FindFirstLine | src/advanced/features/cart/hooks/useCart.ts:25 | `find` returns the first line with the id |
| Cart.GetCartQuantity | src/advanced/features/cart/hooks/useCart.ts:23-29 | the quantity is 0 when no line has the id |
| Cart.QuantityOfLine | src/advanced/features/cart/hooks/useCart.ts:23-29 | with one line per product, the lookup returns that line's quantity |
| Seqs.Filter | src/advanced/features/cart/hooks/useCart.ts:80 | `Array.prototype.filter`: every kept element is in the input and accepted, every accepted element is kept, all-accepted keeps the list and none-accepted empties it |
| Cart.RemoveLines | src/advanced/features/cart/hooks/useCart.ts:79-81 | the result holds exactly the lines of other products, and the removed product's quantity is then 0 |
| Cart.RemoveLinesShape | src/advanced/features/cart/hooks/useCart.ts:79-81 | removal keeps the remaining lines in order and keeps one line per product |
| Cart.RemoveLinesKeepsOthers | src/advanced/features/cart/hooks/useCart.ts:79-81 | removal leaves every other product's quantity unchanged |
| Cart.SetLineQuantity | src/advanced/features/cart/hooks/useCart.ts:103-109 | the `map` keeps the length and every line's product, sets the quantity of the lines for the id, and leaves the others |
| Cart.SetLineQuantityKeepsUniqueIds | src/advanced/features/cart/hooks/useCart.ts:103-109 | setting a quantity keeps one line per product |
| Cart.SetLineQuantityLookup | src/advanced/features/cart/hooks/useCart.ts:103-109 | afterwards the product's quantity is the new one if it was in the cart, and every other product's quantity is unchanged |
| Cart.AddRejected | src/advanced/features/cart/hooks/useCart.ts:51-53 | the updater refuses the raise iff the product has a line and its looked-up quantity already reaches the stock |
| Cart.AddUpdate | src/advanced/features/cart/hooks/useCart.ts:45-69 | a rejected raise returns the previous cart; a product not yet in the cart is appended with quantity 1 |
| Cart.AppendLookup | src/advanced/features/cart/hooks/useCart.ts:68 | after appending a new product's line, it has the line's quantity and every earlier product keeps its quantity |
| Cart.AddUpdateRaises | src/advanced/features/cart/hooks/useCart.ts:50-65 | when one more unit fits the stock, the updater is the `map` setting the line's quantity one higher |
| Cart.AddUpdateIncrements | src/advanced/features/cart/hooks/useCart.ts:45-69 | unless the raise is rejected, the product's quantity goes up by exactly 1 |
| Cart.AddUpdateKeepsOthers | src/advanced/features/cart/hooks/useCart.ts:45-69 | every other product's quantity is unchanged |
| Cart.RaisedLineKeepsOthers | src/advanced/features/cart/hooks/useCart.ts:61-65 | raising one line leaves every other product's quantity unchanged |
| Cart.AddUpdateKeepsUniqueIds | src/advanced/features/cart/hooks/useCart.ts:45-68 | the add updater keeps one line per product |
| Cart.GuardRulesOutRejection | src/advanced/features/cart/hooks/useCart.ts:34-58 | once the early guard (remaining stock > 0) passes on the same cart, the updater's own stock check cannot fire |
| Cart.FindProduct | src/advanced/features/cart/hooks/useCart.ts:94 | `products.find` fails iff no product has the id; a found product is in the list with that id |
| Cart.FindFirstProduct | src/advanced/features/cart/hooks/useCart.ts:94 | `find` returns the first product with the id, so `updateQuantity` reads that product's stock |
| Cart.CartStore.AddToCart | src/advanced/features/cart/hooks/useCart.ts:32-74 | no remaining stock: cart unchanged with the stock notice; otherwise the updater is applied, the product's quantity rises by 1, success is reported, and uniqueness is kept |
| Cart.CartStore.RemoveFromCart | src/advanced/features/cart/hooks/useCart.ts:77-84 | the cart becomes the filtered list, and uniqueness is kept |
| Cart.CartStore.UpdateQuantity | src/advanced/features/cart/hooks/useCart.ts:87-112 | quantity ≤ 0 removes the lines; an unknown product changes nothing; above stock changes nothing and reports the limit; otherwise only the matching lines get the new quantity |
| Coupons.HasCode | src/basic/features/coupons/hooks/useCoupons.ts:30 | `find` by code succeeds iff some coupon has the code |
| Coupons.WithoutCode | src/basic/features/coupons/hooks/useCoupons.ts:44 | after the filter no coupon has the code, and every other code is present iff it was before |
| Coupons.WithoutCodeShape | src/basic/features/coupons/hooks/useCoupons.ts:44 | the filter keeps the remaining coupons in order and keeps codes unique |
| Coupons.AddFreshKeepsUniqueCodes | src/basic/features/coupons/hooks/useCoupons.ts:35 | appending a coupon with a fresh code keeps codes unique and makes the code present |
| Coupons.CouponAccepted | src/basic/features/coupons/hooks/useCoupons.ts:58 | the gate accepts iff the coupon is an amount coupon or the current total is at least 10000 |
| Coupons.GateBoundary | src/basic/features/coupons/hooks/useCoupons.ts:58 | a percentage coupon is refused at 9999 and accepted at 10000 |
| Coupons.GateSeesSelectedCoupon | src/advanced/entities/coupon/hooks/useCoupons.ts:46-48 | with a 50% coupon selected on a 15000 cart, the gate sees 7500 and refuses a second percentage coupon that the coupon-free total would accept |
| Coupons.CouponStore.AddCoupon | src/basic/features/coupons/hooks/useCoupons.ts:28-39 | a duplicate code leaves the list unchanged; a fresh code is appended at the end; the selection is untouched; codes stay unique (the same rule as src/advanced/entities/coupon/hooks/useCoupons.ts addCoupon) |
| Coupons.CouponStore.DeleteCoupon | src/basic/features/coupons/hooks/useCoupons.ts:42-51 | the list becomes the filtered list; the selection is cleared iff it has the deleted code (the same rule as the advanced copy's deleteCoupon) |
| Coupons.CouponStore.ApplyCoupon | src/basic/features/coupons/hooks/useCoupons.ts:54-70 | an accepted coupon becomes the selection; a refused one leaves the selection; the list is untouched |
| Coupons.CouponStore.ApplyCouponToCart | src/advanced/entities/coupon/hooks/useCoupons.ts:43-59 | the gate reads the cart's total with the currently selected coupon applied |
| Products.WithId | src/advanced/features/product/admin/hooks/useProducts.ts:18-21 | the new product carries every submitted field plus the given id |
| Products.Merge | src/advanced/features/product/admin/hooks/useProducts.ts:33 | each field present in the update replaces the product's own; every absent field keeps the product's value |
| Products.MergeProperties | src/advanced/features/product/admin/hooks/useProducts.ts:33 | merging an update twice is merging it once; an empty update changes nothing |
| Products.UpdateById | src/advanced/features/product/admin/hooks/useProducts.ts:30-35 | same length; matching products are merged; the others are unchanged |
| Products.UpdateUnknownId | src/advanced/features/product/admin/hooks/useProducts.ts:32-34 | updating an id no product has leaves the list equal to before |
| Products.DeleteById | src/advanced/features/product/admin/hooks/useProducts.ts:44 | the result holds exactly the products with other ids, in their order |
| Products.AddFreshKeepsUniqueIds | src/advanced/features/product/admin/hooks/useProducts.ts:22 | appending a product under a fresh id keeps ids unique |
| Products.UpdateKeepsUniqueIds | src/advanced/features/product/admin/hooks/useProducts.ts:31-35 | an update without an id field keeps every id, so ids stay unique |
| Products.DeleteKeepsUniqueIds | src/advanced/features/product/admin/hooks/useProducts.ts:44 | deleting keeps ids unique |
| Products.ProductStore.AddProduct | src/advanced/features/product/admin/hooks/useProducts.ts:16-26 | exactly one product is appended; the existing ones are unchanged; the success notice is returned |
| Products.ProductStore.UpdateProduct | src/advanced/features/product/admin/hooks/useProducts.ts:29-39 | the list becomes the merged-by-id list; the success notice is returned |
| Products.ProductStore.DeleteProduct | src/advanced/features/product/admin/hooks/useProducts.ts:42-48 | the list becomes the filtered-by-id list; the success notice is returned |
| ProductSearch.FilteredProducts | src/basic/features/product/shop/hooks/useProductSearch.tsx:11-26 | an empty term keeps every product; otherwise a product is kept iff its lower-cased name, or its present non-empty lower-cased description, contains the lower-cased term (the second copy, in src/basic/features/products/list/hooks/useProductSearch.tsx, is the same filter) |
| ProductSearch.FilteredIsSubsequence | src/basic/features/product/shop/hooks/useProductSearch.tsx:16-25 | the result is an order-preserving sub-list of the products |
| ProductSearch.TermCaseIgnored | src/basic/features/product/shop/hooks/useProductSearch.tsx:18-24 | a term and its lower-cased form give the same result |
| ProductSearch.NameCaseIgnored | src/basic/features/product/shop/hooks/useProductSearch.tsx:17-20 | a name matches regardless of its case |
| ProductSearch.NoDescriptionNameOnly | src/basic/features/products/list/hooks/useProductSearch.tsx:19-22 | a product without a description is kept iff its name matches |
| Text.Lower | src/basic/features/product/shop/hooks/useProductSearch.tsx:19-20 | `toLowerCase` keeps the length and maps each character through the ASCII lower-case map |
| Text.Upper | src/advanced/features/coupon/admin/ui/CouponForm.tsx:110 | `toUpperCase` keeps the length and maps each character through the ASCII upper-case map |
| Text.Contains | src/basic/features/product/shop/hooks/useProductSearch.tsx:20 | `includes`: a needle that starts the text is found, and a found needle is no longer than the text |
| Text.AcceptsNumberInput | src/advanced/features/coupon/admin/ui/CouponForm.tsx:36 | the numeric fields' filter accepts a text iff every character is a digit (so the empty text too) |
| Text.LowerIdempotent | src/basic/features/product/shop/hooks/useProductSearch.tsx:18-20 | lower-casing twice is lower-casing once |
| Text.UpperIdempotent | src/advanced/features/coupon/admin/ui/CouponForm.tsx:110 | upper-casing twice is upper-casing once |
| Text.ContainsAt | src/basic/features/product/shop/hooks/useProductSearch.tsx:18-20 | `includes` holds iff the needle occurs at some offset |
| Text.ParseShowNat | src/advanced/features/coupon/admin/ui/CouponForm.tsx:36-39 | the numeral of n is all digits and parses back to n |
| Text.ParseIntOrZero | src/advanced/features/coupon/admin/ui/CouponForm.tsx:45 | a digit string parses to its decimal value; the empty string gives 0 |
| Text.FieldText | src/advanced/features/coupon/admin/ui/CouponForm.tsx:143-145 | the field shows the empty text iff the value is 0 |
| Text.FieldTextRoundTrip | src/advanced/features/coupon/admin/ui/CouponForm.tsx:143-145 | parsing the shown text gives back the stored value |
| CouponForm.DiscountValueChange | src/advanced/features/coupon/admin/ui/CouponForm.tsx:32-42 | only the empty string or digits are accepted; a digit string stores its decimal value (leading zeros allowed) and the empty string stores 0; anything else leaves the form; name, code and type are kept |
| CouponForm.TypedNumberStored | src/advanced/features/coupon/admin/ui/CouponForm.tsx:36-41 | typing the numeral of n stores n; the empty input stores 0 |
| CouponForm.ShownValueIsStored | src/advanced/features/coupon/admin/ui/CouponForm.tsx:143-145 | the value the blur handler reads is the stored value |
| CouponForm.DiscountValueBlur | src/advanced/features/coupon/admin/ui/CouponForm.tsx:44-73 | after blur the value lies in [0, 100] for a percentage or [0, 100000] for an amount; above the maximum becomes the maximum, below 0 becomes 0, in range is unchanged; other fields are kept |
| CouponForm.BlurWarns | src/advanced/features/coupon/admin/ui/CouponForm.tsx:47-48 | the blur handler warns iff the stored value exceeds the type's maximum (same rule at lines 60-61 for amounts); a negative value is reset without a warning |
| CouponForm.BlurIdempotent | src/advanced/features/coupon/admin/ui/CouponForm.tsx:44-73 | blurring twice is blurring once, and a blurred form no longer triggers the warning |
| CouponForm.CodeChange | src/advanced/features/coupon/admin/ui/CouponForm.tsx:107-112 | the stored code is the input upper-cased, character by character, with no lower-case letter left; the other fields are kept |
| CouponForm.CodeChangeStable | src/advanced/features/coupon/admin/ui/CouponForm.tsx:106-111 | re-entering the shown code changes nothing |
| ProductForm.AddDiscount | src/advanced/features/product/admin/ui/ProductForm.tsx:35-40 | appends {quantity: 10, rate: 0.1}; the earlier tiers and the other fields are unchanged |
| ProductForm.DropIndex | src/advanced/features/product/admin/ui/ProductForm.tsx:43 | filtering out index i is `s[..i] + s[i+1..]`; an index outside the list keeps it |
| ProductForm.RemoveDiscount | src/advanced/features/product/admin/ui/ProductForm.tsx:42-48 | exactly the tier at the index is removed and the rest keep their order; an out-of-range index changes nothing |
| ProductForm.UpdateDiscount | src/advanced/features/product/admin/ui/ProductForm.tsx:50-61 | sets one field of one tier; the length, the other field and every other tier are unchanged |
| ProductForm.RatePercentRoundTrip | src/advanced/features/product/admin/ui/ProductForm.tsx:203-209 | an integer percentage p is stored as p/100 and shown back as exactly p |
| ProductForm.RateInput | src/advanced/features/product/admin/ui/ProductForm.tsx:203-209 | the edited tier shows the parsed percentage and keeps its quantity |
| ProductForm.TierQuantityInput | src/advanced/features/product/admin/ui/ProductForm.tsx:188-195 | the edited tier gets the parsed quantity |
| ProductForm.PriceChange | src/advanced/features/product/admin/ui/ProductForm.tsx:113-121 | only the empty string or digits are accepted; a digit string stores its decimal value (leading zeros allowed) and the empty string stores 0; anything else leaves the form |
| ProductForm.StockChange | src/advanced/features/product/admin/ui/ProductForm.tsx:144-152 | the same rule for the stock |
| ProductForm.TypedPriceAndStock | src/advanced/features/product/admin/ui/ProductForm.tsx:115-118 | typing the numeral of n stores n |
| ProductForm.PriceBlur | src/advanced/features/product/admin/ui/ProductForm.tsx:122-130 | after blur the price is non-negative: a negative price becomes exactly 0, and a non-negative price is left unchanged |
| ProductForm.StockBlur | src/advanced/features/product/admin/ui/ProductForm.tsx:153-167 | after blur the stock lies in [0, 9999]: negative becomes 0, above 9999 becomes 9999, in range is unchanged |
| ProductForm.PriceBlurNotice | src/advanced/features/product/admin/ui/ProductForm.tsx:124-129 | the price blur warns iff the price is negative; an empty field is reset silently |
| ProductForm.StockBlurNotice | src/advanced/features/product/admin/ui/ProductForm.tsx:155-165 | the stock blur warns iff the stock is negative or above 9999, with the notice for each case |
| ProductForm.BlurSettles | src/advanced/features/product/admin/ui/ProductForm.tsx:122-167 | after a blur, blurring again changes nothing and raises no notice |

## Left out

- Notification texts, their types and their timed removal are not modelled. The store methods (`CartStore`, `CouponStore`, `ProductStore`) return which notice they raise; the blur handlers' notices are given by separate functions (`CouponForm.BlurWarns`, `ProductForm.PriceBlurNotice`, `ProductForm.StockBlurNotice`) beside the functions that compute the new form.
- The 500 ms debounce of the search term is left out; the filter takes the already-debounced term.
- Browser storage, the jotai atoms and JSON persistence are left out; the stores hold their state in fields.
- `Date.now()` product ids are left out; `AddProduct` takes the id as a parameter.
- IEEE-754 arithmetic is not modelled. Rates and totals are exact, so binary artefacts (0.1 being inexact, near-half ties) are not reproduced.
- Unicode case mapping is not modelled. `toLowerCase`/`toUpperCase` are ASCII-only here.
- Text.ParseIntOrZero: covers only the empty string, digits, and a minus sign followed by digits. `parseInt` on other text (a numeric prefix such as "12abc", or a decimal such as "12.5" from a number input) is taken as 0. The digit-only guards mean the coupon and price/stock handlers never meet such text.
- ProductForm.UpdateDiscount: modelled on values, so its aliasing is not captured. Editing a product hands the form the catalogue product's own tier array (`discounts: product.discounts || []`, `src/advanced/features/product/admin/ui/ProductManagement.tsx:40`, and the same in the basic copy), and the source's `updateDiscount` copies that array shallowly and writes into the shared tier object. Editing a tier therefore changes the product held in the product list at once, before submit; cancelling does not undo it; and a cart line holding that product object (the cart stores the product by reference) is priced with the edited tier. The model's product list and cart change only through their own operations.
- ProductForm.UpdateDiscount: requires an index inside the list. The source would throw on an index with no tier, and the form only passes indices of rendered tiers.
- Cart.CartStore.AddToCart: the updater runs on the same cart the guard read. React's deferred updater (a `prevCart` newer than the render's `cart`) is not modelled. `Cart.AddUpdate` still models the updater's own stock check for any previous cart.
- Coupons.CouponStore.AddCoupon: the duplicate check and the append read the same coupon list. In the source the check reads the rendered `coupons` while the append goes through the updater's `prev` (`src/basic/features/coupons/hooks/useCoupons.ts:30,35`); a `prev` newer than the render is not modelled.
- The basic `ProductManagement.tsx` repeats the form handlers inline and is covered by the ProductForm model. The advanced `CouponSelector.tsx` repeats the coupon gate. The other UI components, `useOrder.ts` and `useLocalStorage.ts` are not part of this model.
- `src/types.ts` and the `ProductWithUI` type are not part of this model. `types.dfy` restates the fields the rules use, with an optional `description`.
- Price formatting (`toLocaleString`) is left out.
