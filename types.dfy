/** The shop's shared record types: products with quantity-discount tiers,
    cart lines, coupons and the computed cart totals. Money is a whole number
    of currency units; discount rates are exact reals. */
module ShopTypes {

  datatype Option<+T> = None | Some(value: T)

  /** "Buy at least `quantity` units, get `rate` (a fraction) off this line." */
  datatype Tier = Tier(quantity: int, rate: real)

  /** A catalogue product; `description` is the optional field the product
      list adds for display and search. */
  datatype Product = Product(
    id: string,
    name: string,
    price: int,
    stock: int,
    discounts: seq<Tier>,
    description: Option<string>)

  /** One line of the cart: a snapshot of the product and how many units. */
  datatype CartItem = CartItem(product: Product, quantity: int)

  datatype DiscountType = Amount | Percentage

  /** A coupon: `discountValue` is currency units for `Amount` and a
      percentage for `Percentage`. */
  datatype Coupon = Coupon(name: string, code: string, discountType: DiscountType, discountValue: int)

  datatype CartTotal = CartTotal(totalBeforeDiscount: int, totalAfterDiscount: int)

  function LineId(item: CartItem): string { item.product.id }

  function ProductId(p: Product): string { p.id }

  function CouponCode(c: Coupon): string { c.code }
}
