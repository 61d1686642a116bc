/** The pricing engine: per-product quantity-tier discounts, the cart-wide
    bulk discount, the 50% cap, line totals, and the cart total with an
    optional coupon. Rates are exact reals; `Round` is JavaScript's
    `Math.round` (halves round toward +infinity). */
module Pricing {
  import opened ShopTypes

  const BulkQuantity: int := 10
  const BulkRate: real := 0.05
  const DiscountCap: real := 0.5

  /** `Math.round(x)`: the integer nearest to `x`, halves rounded up. */
  function Round(x: real): (n: int)
    ensures x - 0.5 < n as real <= x + 0.5
  {
    (x + 0.5).Floor
  }

  lemma RoundMonotone(x: real, y: real)
    requires x <= y
    ensures Round(x) <= Round(y)
  {
  }

  lemma RoundOfInt(n: int)
    ensures Round(n as real) == n
  {
  }

  function Min(a: real, b: real): (m: real)
    ensures m <= a && m <= b && (m == a || m == b)
  {
    if a <= b then a else b
  }

  /** A tier applies to a line of `quantity` units when its threshold is met. */
  predicate Qualifies(t: Tier, quantity: int)
  {
    quantity >= t.quantity
  }

  /** The `reduce` over the tiers: keep the running maximum `acc`, replaced
      only by a qualifying tier whose rate strictly exceeds it. The result is
      the largest of `acc` and the qualifying rates. */
  function MaxQualifyingRate(tiers: seq<Tier>, quantity: int, acc: real): (r: real)
    ensures r >= acc
    ensures forall i :: 0 <= i < |tiers| && Qualifies(tiers[i], quantity) ==> tiers[i].rate <= r
    ensures r == acc || exists i :: 0 <= i < |tiers| && Qualifies(tiers[i], quantity) && tiers[i].rate == r
    decreases |tiers|
  {
    if tiers == [] then acc
    else
      var t := tiers[0];
      var acc' := if Qualifies(t, quantity) && t.rate > acc then t.rate else acc;
      var r := MaxQualifyingRate(tiers[1..], quantity, acc');
      assert forall i :: 1 <= i < |tiers| ==> tiers[i] == tiers[1..][i - 1];
      r
  }

  /** `getProductDiscount`: the largest rate among the product's tiers whose
      threshold the line's quantity meets, or 0 when none does. */
  function ProductDiscount(item: CartItem): (r: real)
    ensures r >= 0.0
    ensures forall i :: 0 <= i < |item.product.discounts| && Qualifies(item.product.discounts[i], item.quantity) ==>
              item.product.discounts[i].rate <= r
    ensures r == 0.0 || exists i :: (0 <= i < |item.product.discounts| &&
              Qualifies(item.product.discounts[i], item.quantity) && item.product.discounts[i].rate == r)
  {
    MaxQualifyingRate(item.product.discounts, item.quantity, 0.0)
  }

  /** When no tier qualifies, the product discount is 0. */
  lemma NoQualifyingTier(item: CartItem)
    requires forall i :: 0 <= i < |item.product.discounts| ==> !Qualifies(item.product.discounts[i], item.quantity)
    ensures ProductDiscount(item) == 0.0
  {
  }

  /** Buying more units of a product never lowers its tier discount. */
  lemma ProductDiscountMonotone(item: CartItem, more: int)
    requires item.quantity <= more
    ensures ProductDiscount(item) <= ProductDiscount(item.(quantity := more))
  {
    var r := ProductDiscount(item);
    if r != 0.0 {
      var i :| 0 <= i < |item.product.discounts| &&
               Qualifies(item.product.discounts[i], item.quantity) && item.product.discounts[i].rate == r;
      assert Qualifies(item.product.discounts[i], more);
    }
  }

  /** `cart.some(item => item.quantity >= 10)`. */
  predicate HasBulkLine(cart: seq<CartItem>)
    ensures HasBulkLine(cart) <==> exists i :: 0 <= i < |cart| && cart[i].quantity >= BulkQuantity
    decreases |cart|
  {
    if cart == [] then false
    else
      assert forall i :: 1 <= i < |cart| ==> cart[i] == cart[1..][i - 1];
      cart[0].quantity >= BulkQuantity || HasBulkLine(cart[1..])
  }

  /** `getBulkPurchaseDiscount`: 5% when some line holds at least 10 units,
      otherwise 0. */
  function BulkPurchaseDiscount(cart: seq<CartItem>): (r: real)
    ensures r == BulkRate <==> exists i :: 0 <= i < |cart| && cart[i].quantity >= BulkQuantity
    ensures r == 0.0 <==> forall i :: 0 <= i < |cart| ==> cart[i].quantity < BulkQuantity
  {
    if HasBulkLine(cart) then BulkRate else 0.0
  }

  /** `getMaxApplicableDiscount`: tier discount plus bulk discount, capped at 50%. */
  function MaxApplicableDiscount(item: CartItem, cart: seq<CartItem>): (r: real)
    ensures 0.0 <= r <= DiscountCap
    ensures r <= ProductDiscount(item) + BulkPurchaseDiscount(cart)
    ensures r < DiscountCap ==> r == ProductDiscount(item) + BulkPurchaseDiscount(cart)
  {
    Min(ProductDiscount(item) + BulkPurchaseDiscount(cart), DiscountCap)
  }

  /** The undiscounted amount of one line. */
  function LinePrice(item: CartItem): int
  {
    item.product.price * item.quantity
  }

  /** Taking a fraction `d` in [0, 0.5] off a non-negative amount leaves
      between half of it and all of it. */
  lemma DiscountedBounds(base: real, d: real)
    requires base >= 0.0 && 0.0 <= d <= DiscountCap
    ensures base * 0.5 <= base * (1.0 - d) <= base
  {
    assert base * (1.0 - d) == base - base * d;
    assert 0.0 <= base * d <= base * 0.5;
  }

  /** An amount with the fraction `d` taken off, rounded once. */
  function Discounted(amount: int, d: real): int
  {
    Round(amount as real * (1.0 - d))
  }

  /** A non-negative amount with at most the 50% cap taken off stays
      between half of it (rounded) and all of it. */
  lemma DiscountedWithinCap(amount: int, d: real)
    ensures amount >= 0 && 0.0 <= d <= DiscountCap ==> Round(amount as real * 0.5) <= Discounted(amount, d) <= amount
  {
    if amount >= 0 && 0.0 <= d <= DiscountCap {
      var base := amount as real;
      DiscountedBounds(base, d);
      RoundMonotone(base * 0.5, base * (1.0 - d));
      RoundMonotone(base * (1.0 - d), base);
      RoundOfInt(amount);
    }
  }

  /** `calculateItemTotal`: the line price with its applicable discount taken
      off, rounded once. For a non-negative line price the total lies between
      half of it (rounded) and all of it. */
  function ItemTotal(item: CartItem, cart: seq<CartItem>): (r: int)
    ensures LinePrice(item) >= 0 ==> Round(LinePrice(item) as real * 0.5) <= r <= LinePrice(item)
  {
    var d := MaxApplicableDiscount(item, cart);
    DiscountedWithinCap(LinePrice(item), d);
    Discounted(LinePrice(item), d)
  }

  /** Computing the bulk rate once per cart and passing it in gives the same
      line total as `ItemTotal`, which recomputes it for each line. */
  lemma HoistedBulkRate(item: CartItem, cart: seq<CartItem>, bulkDiscount: real)
    requires bulkDiscount == BulkPurchaseDiscount(cart)
    ensures Discounted(LinePrice(item), Min(ProductDiscount(item) + bulkDiscount, DiscountCap)) == ItemTotal(item, cart)
  {
  }

  /** Sum of undiscounted line prices (recursion on the last line, matching a
      left-to-right accumulation). */
  function SubtotalBefore(items: seq<CartItem>): int
  {
    if items == [] then 0 else SubtotalBefore(items[..|items| - 1]) + LinePrice(items[|items| - 1])
  }

  /** Sum of `ItemTotal(item, whole)` over `items`, each line seeing the bulk
      discount of the whole cart. */
  function SubtotalAfter(items: seq<CartItem>, whole: seq<CartItem>): int
  {
    if items == [] then 0 else SubtotalAfter(items[..|items| - 1], whole) + ItemTotal(items[|items| - 1], whole)
  }

  lemma SubtotalsSnoc(items: seq<CartItem>, whole: seq<CartItem>, k: nat)
    requires k < |items|
    ensures SubtotalBefore(items[..k + 1]) == SubtotalBefore(items[..k]) + LinePrice(items[k])
    ensures SubtotalAfter(items[..k + 1], whole) == SubtotalAfter(items[..k], whole) + ItemTotal(items[k], whole)
  {
    assert items[..k + 1][..k] == items[..k];
  }

  /** The coupon step of `calculateCartTotal`: an amount coupon subtracts its
      value with a floor at 0; a percentage coupon scales and rounds; no coupon
      leaves the total as it is. */
  function ApplyCouponTo(total: int, coupon: Option<Coupon>): (r: int)
    ensures coupon.None? ==> r == total
    ensures coupon.Some? && coupon.value.discountType == Amount ==>
              r >= 0 && r >= total - coupon.value.discountValue && (r == 0 || r == total - coupon.value.discountValue)
    ensures coupon.Some? && coupon.value.discountType == Percentage && 0 <= coupon.value.discountValue <= 100 && total >= 0 ==>
              0 <= r <= total
  {
    match coupon
    case None => total
    case Some(c) =>
      if c.discountType == Amount then
        if total - c.discountValue > 0 then total - c.discountValue else 0
      else
        PercentageWithinTotal(total, c.discountValue);
        Discounted(total, c.discountValue as real / 100.0)
  }

  /** A percentage of at most 100 taken off a non-negative total leaves
      between 0 and the total. */
  lemma PercentageWithinTotal(total: int, percent: int)
    ensures total >= 0 && 0 <= percent <= 100 ==> 0 <= Discounted(total, percent as real / 100.0) <= total
  {
    if total >= 0 && 0 <= percent <= 100 {
      var f := 1.0 - percent as real / 100.0;
      var scaled := total as real * f;
      assert 0.0 <= f <= 1.0;
      assert 0.0 <= scaled <= total as real by {
        assert total as real * f <= total as real * 1.0;
      }
      RoundMonotone(0.0, scaled);
      RoundMonotone(scaled, total as real);
      RoundOfInt(total);
      RoundOfInt(0);
    }
  }

  /** `calculateCartTotal`: one pass over the cart with the bulk rate computed
      once, then the coupon. Every line contributes exactly its
      `calculateItemTotal`, so hoisting the bulk rate changes nothing. */
  method CalculateCartTotal(cart: seq<CartItem>, selectedCoupon: Option<Coupon>) returns (total: CartTotal)
    ensures total.totalBeforeDiscount == SubtotalBefore(cart)
    ensures total.totalAfterDiscount == ApplyCouponTo(SubtotalAfter(cart, cart), selectedCoupon)
  {
    var totalBeforeDiscount := 0;
    var totalAfterDiscount := 0;
    var bulkDiscount := BulkPurchaseDiscount(cart);
    for i := 0 to |cart|
      invariant totalBeforeDiscount == SubtotalBefore(cart[..i])
      invariant totalAfterDiscount == SubtotalAfter(cart[..i], cart)
    {
      var item := cart[i];
      var itemPrice := item.product.price * item.quantity;
      totalBeforeDiscount := totalBeforeDiscount + itemPrice;
      var productDiscount := ProductDiscount(item);
      var totalDiscount := Min(productDiscount + bulkDiscount, DiscountCap);
      var itemTotal := Discounted(itemPrice, totalDiscount);
      HoistedBulkRate(item, cart, bulkDiscount);
      SubtotalsSnoc(cart, cart, i);
      totalAfterDiscount := totalAfterDiscount + itemTotal;
    }
    assert cart[..|cart|] == cart;
    if selectedCoupon.Some? {
      var coupon := selectedCoupon.value;
      if coupon.discountType == Amount {
        totalAfterDiscount := if 0 > totalAfterDiscount - coupon.discountValue then 0
                              else totalAfterDiscount - coupon.discountValue;
      } else {
        totalAfterDiscount := Discounted(totalAfterDiscount, coupon.discountValue as real / 100.0);
      }
    }
    // both sums are already whole numbers, so the final rounding keeps them
    RoundOfInt(totalBeforeDiscount);
    RoundOfInt(totalAfterDiscount);
    total := CartTotal(Round(totalBeforeDiscount as real), Round(totalAfterDiscount as real));
  }

  /** Line discounts never raise a price nor make it negative: for a cart of
      non-negative prices and quantities, the discounted subtotal lies between
      0 and the undiscounted one. */
  lemma {:induction false} SubtotalAfterBounds(items: seq<CartItem>, whole: seq<CartItem>)
    requires forall i :: 0 <= i < |items| ==> items[i].product.price >= 0 && items[i].quantity >= 0
    ensures 0 <= SubtotalAfter(items, whole) <= SubtotalBefore(items)
    decreases |items|
  {
    if items != [] {
      var last := items[|items| - 1];
      SubtotalAfterBounds(items[..|items| - 1], whole);
      assert LinePrice(last) >= 0;
      RoundMonotone(0.0, LinePrice(last) as real * 0.5);
      RoundOfInt(0);
    }
  }

  /** Without a coupon, the total after discount never exceeds the total
      before discount, and is never negative. */
  lemma NoCouponTotalBounds(cart: seq<CartItem>)
    requires forall i :: 0 <= i < |cart| ==> cart[i].product.price >= 0 && cart[i].quantity >= 0
    ensures 0 <= ApplyCouponTo(SubtotalAfter(cart, cart), None) <= SubtotalBefore(cart)
  {
    SubtotalAfterBounds(cart, cart);
  }

  /** With any coupon whose percentage is at most 100, the final total is
      never negative. */
  lemma CouponTotalNonNegative(cart: seq<CartItem>, coupon: Option<Coupon>)
    requires forall i :: 0 <= i < |cart| ==> cart[i].product.price >= 0 && cart[i].quantity >= 0
    requires coupon.Some? && coupon.value.discountType == Percentage ==> 0 <= coupon.value.discountValue <= 100
    ensures ApplyCouponTo(SubtotalAfter(cart, cart), coupon) >= 0
  {
    SubtotalAfterBounds(cart, cart);
  }

  /** With a coupon whose value is not negative and, for a percentage, at
      most 100, the final total lies between 0 and the undiscounted total. */
  lemma CouponTotalBounds(cart: seq<CartItem>, coupon: Option<Coupon>)
    requires forall i :: 0 <= i < |cart| ==> cart[i].product.price >= 0 && cart[i].quantity >= 0
    requires coupon.Some? ==> coupon.value.discountValue >= 0
    requires coupon.Some? && coupon.value.discountType == Percentage ==> coupon.value.discountValue <= 100
    ensures 0 <= ApplyCouponTo(SubtotalAfter(cart, cart), coupon) <= SubtotalBefore(cart)
  {
    SubtotalAfterBounds(cart, cart);
  }

  /** An empty cart totals 0 before and after discount, with no coupon or
      with any coupon whose value is not negative. */
  lemma EmptyCartTotals(coupon: Option<Coupon>)
    requires coupon.Some? ==> coupon.value.discountValue >= 0
    ensures SubtotalBefore([]) == 0
    ensures ApplyCouponTo(SubtotalAfter([], []), coupon) == 0
  {
    if coupon.Some? && coupon.value.discountType == Percentage {
      assert 0 as real * (1.0 - coupon.value.discountValue as real / 100.0) == 0.0;
      RoundOfInt(0);
    }
  }

  /** Worked example: 12 units at 1000 with a "10 or more: 10% off" tier and
      the bulk discount it triggers give 15% off, i.e. 10200 of 12000. */
  lemma TwelveUnitsExample()
    ensures var p := Product("p1", "item", 1000, 20, [Tier(10, 0.1)], None);
            var cart := [CartItem(p, 12)];
            SubtotalBefore(cart) == 12000 && SubtotalAfter(cart, cart) == 10200
  {
    var p := Product("p1", "item", 1000, 20, [Tier(10, 0.1)], None);
    var cart := [CartItem(p, 12)];
    assert ProductDiscount(cart[0]) == 0.1;
    assert HasBulkLine(cart);
    assert MaxApplicableDiscount(cart[0], cart) == 0.15;
    assert cart[..0] == [];
  }

  /** Worked example: 10 units at 1000 of a product without tiers get only the
      bulk discount, 5% off: 9500. */
  lemma BulkOnlyExample()
    ensures var p := Product("p4", "item", 1000, 20, [], None);
            var cart := [CartItem(p, 10)];
            ItemTotal(cart[0], cart) == 9500
  {
    var p := Product("p4", "item", 1000, 20, [], None);
    var cart := [CartItem(p, 10)];
    assert ProductDiscount(cart[0]) == 0.0;
    assert HasBulkLine(cart);
    assert MaxApplicableDiscount(cart[0], cart) == 0.05;
  }

  /** Worked example: a 48% tier plus the 5% bulk discount is capped at
      exactly 50%; a 40% tier plus 5% stays at 45%. */
  lemma CapExample()
    ensures var p := Product("p2", "item", 100, 20, [Tier(10, 0.48)], None);
            var cart := [CartItem(p, 10)];
            MaxApplicableDiscount(cart[0], cart) == 0.5
    ensures var p := Product("p3", "item", 100, 20, [Tier(10, 0.4)], None);
            var cart := [CartItem(p, 10)];
            MaxApplicableDiscount(cart[0], cart) == 0.45
  {
    var p2 := Product("p2", "item", 100, 20, [Tier(10, 0.48)], None);
    var c2 := [CartItem(p2, 10)];
    assert ProductDiscount(c2[0]) == 0.48 && HasBulkLine(c2);
    var p3 := Product("p3", "item", 100, 20, [Tier(10, 0.4)], None);
    var c3 := [CartItem(p3, 10)];
    assert ProductDiscount(c3[0]) == 0.4 && HasBulkLine(c3);
  }

  /** Worked example: an amount coupon larger than the total brings it to 0. */
  lemma AmountCouponFloorExample()
    ensures ApplyCouponTo(5000, Some(Coupon("big", "BIG", Amount, 10000))) == 0
  {
  }
}
