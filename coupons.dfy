/** The coupon catalogue and the coupon selection: add (codes are unique),
    delete (clearing a selection of the deleted code) and apply (a percentage
    coupon needs a current total of at least 10000). The current total is the
    cart total with the currently selected coupon already applied. */
module Coupons {
  import opened ShopTypes
  import opened Seqs
  import opened Pricing

  /** Minimum current total for selecting a percentage coupon. */
  const PercentageMinimum: int := 10000

  /** No two coupons share a code. */
  predicate UniqueCodes(coupons: seq<Coupon>)
  {
    DistinctBy(coupons, CouponCode)
  }

  /** `coupons.find(c => c.code === code)` finds a coupon. */
  predicate HasCode(coupons: seq<Coupon>, code: string)
    ensures HasCode(coupons, code) <==> exists i :: 0 <= i < |coupons| && coupons[i].code == code
    decreases |coupons|
  {
    if coupons == [] then false
    else
      assert forall i :: 1 <= i < |coupons| ==> coupons[i] == coupons[1..][i - 1];
      coupons[0].code == code || HasCode(coupons[1..], code)
  }

  function KeepOtherCodes(code: string): Coupon -> bool
  {
    (c: Coupon) => c.code != code
  }

  /** `deleteCoupon`'s updater: drop every coupon with `code`, keep the rest
      in order. */
  function WithoutCode(coupons: seq<Coupon>, code: string): (r: seq<Coupon>)
    ensures !HasCode(r, code)
    ensures forall other :: other != code ==> (HasCode(r, other) <==> HasCode(coupons, other))
  {
    var r := Filter(coupons, KeepOtherCodes(code));
    assert forall other :: other != code && HasCode(coupons, other) ==> HasCode(r, other) by {
      forall other | other != code && HasCode(coupons, other) ensures HasCode(r, other) {
        var i :| 0 <= i < |coupons| && coupons[i].code == other;
        assert coupons[i] in r;
      }
    }
    r
  }

  /** Deleting keeps the order of the remaining coupons and keeps codes unique. */
  lemma WithoutCodeShape(coupons: seq<Coupon>, code: string)
    ensures IsSubsequence(WithoutCode(coupons, code), coupons)
    ensures UniqueCodes(coupons) ==> UniqueCodes(WithoutCode(coupons, code))
  {
    FilterIsSubsequence(coupons, KeepOtherCodes(code));
    if UniqueCodes(coupons) {
      FilterKeepsDistinct(coupons, KeepOtherCodes(code), CouponCode);
    }
  }

  /** Appending a coupon whose code is new keeps codes unique. */
  lemma AddFreshKeepsUniqueCodes(coupons: seq<Coupon>, coupon: Coupon)
    requires UniqueCodes(coupons) && !HasCode(coupons, coupon.code)
    ensures UniqueCodes(coupons + [coupon])
    ensures HasCode(coupons + [coupon], coupon.code)
  {
    AppendKeepsDistinct(coupons, coupon, CouponCode);
    assert (coupons + [coupon])[|coupons|] == coupon;
  }

  /** `applyCoupon`'s gate: a percentage coupon is refused below the minimum;
      an amount coupon is always accepted. */
  predicate CouponAccepted(coupon: Coupon, currentTotal: int)
    ensures CouponAccepted(coupon, currentTotal) <==>
            coupon.discountType == Amount || currentTotal >= PercentageMinimum
  {
    !(currentTotal < PercentageMinimum && coupon.discountType == Percentage)
  }

  /** The gate at its boundary: 9999 refuses a percentage coupon, 10000
      accepts it. */
  lemma GateBoundary(coupon: Coupon)
    requires coupon.discountType == Percentage
    ensures !CouponAccepted(coupon, 9999) && CouponAccepted(coupon, 10000)
  {
  }

  /** Because the gate reads the total with the selected coupon applied, a
      selected 50% coupon on a 15000 cart brings the gate total to 7500, so a
      second percentage coupon is refused although the cart alone reaches
      the minimum. */
  lemma GateSeesSelectedCoupon()
    ensures var half := Coupon("half", "HALF", Percentage, 50);
            var tenth := Coupon("tenth", "TENTH", Percentage, 10);
            ApplyCouponTo(15000, Some(half)) == 7500 &&
            CouponAccepted(tenth, 15000) && !CouponAccepted(tenth, ApplyCouponTo(15000, Some(half)))
  {
  }

  /** The notifications the coupon operations raise. */
  datatype CouponNotice = DuplicateCode | CouponAdded | CouponDeleted | PercentageNeedsMinimum | CouponApplied

  class CouponStore {
    var coupons: seq<Coupon>
    var selectedCoupon: Option<Coupon>

    ghost predicate Valid()
      reads this
    {
      UniqueCodes(coupons)
    }

    constructor (initial: seq<Coupon>)
      ensures coupons == initial && selectedCoupon == None
      ensures UniqueCodes(initial) ==> Valid()
    {
      coupons := initial;
      selectedCoupon := None;
    }

    /** `addCoupon`: a duplicate code is refused; otherwise the coupon is
        appended. The selection is untouched. */
    method AddCoupon(newCoupon: Coupon) returns (notice: CouponNotice)
      modifies this
      ensures HasCode(old(coupons), newCoupon.code) ==> coupons == old(coupons) && notice == DuplicateCode
      ensures !HasCode(old(coupons), newCoupon.code) ==> coupons == old(coupons) + [newCoupon] && notice == CouponAdded
      ensures HasCode(coupons, newCoupon.code)
      ensures selectedCoupon == old(selectedCoupon)
      ensures old(Valid()) ==> Valid()
    {
      if HasCode(coupons, newCoupon.code) {
        notice := DuplicateCode;
        return;
      }
      if Valid() {
        AddFreshKeepsUniqueCodes(coupons, newCoupon);
      }
      assert (coupons + [newCoupon])[|coupons|] == newCoupon;
      coupons := coupons + [newCoupon];
      notice := CouponAdded;
    }

    /** `deleteCoupon`: remove every coupon with the code; clear the selection
        exactly when the selected coupon has that code. */
    method DeleteCoupon(couponCode: string) returns (notice: CouponNotice)
      modifies this
      ensures coupons == WithoutCode(old(coupons), couponCode)
      ensures selectedCoupon == if old(selectedCoupon).Some? && old(selectedCoupon).value.code == couponCode
                                then None else old(selectedCoupon)
      ensures notice == CouponDeleted
      ensures old(Valid()) ==> Valid()
    {
      WithoutCodeShape(coupons, couponCode);
      coupons := WithoutCode(coupons, couponCode);
      if selectedCoupon.Some? && selectedCoupon.value.code == couponCode {
        selectedCoupon := None;
      }
      notice := CouponDeleted;
    }

    /** `applyCoupon` given the current total: select the coupon if the gate
        accepts it, otherwise leave the selection as it was. */
    method ApplyCoupon(coupon: Coupon, currentTotal: int) returns (notice: CouponNotice)
      modifies this
      ensures CouponAccepted(coupon, currentTotal) ==> selectedCoupon == Some(coupon) && notice == CouponApplied
      ensures !CouponAccepted(coupon, currentTotal) ==> selectedCoupon == old(selectedCoupon) && notice == PercentageNeedsMinimum
      ensures coupons == old(coupons)
    {
      if currentTotal < PercentageMinimum && coupon.discountType == Percentage {
        notice := PercentageNeedsMinimum;
        return;
      }
      selectedCoupon := Some(coupon);
      notice := CouponApplied;
    }

    /** `applyCoupon` wired to the cart: the current total is the cart total
        computed with the currently selected coupon. */
    method ApplyCouponToCart(coupon: Coupon, cart: seq<CartItem>) returns (notice: CouponNotice)
      modifies this
      ensures var gateTotal := ApplyCouponTo(SubtotalAfter(cart, cart), old(selectedCoupon));
              selectedCoupon == (if CouponAccepted(coupon, gateTotal) then Some(coupon) else old(selectedCoupon))
      ensures coupons == old(coupons)
    {
      var cartTotals := CalculateCartTotal(cart, selectedCoupon);
      notice := ApplyCoupon(coupon, cartTotals.totalAfterDiscount);
    }
  }
}
