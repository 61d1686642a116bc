/** Remaining stock and the sold-out label shown on a product card. */
module Stock {

  /** `getRemainingStock`: stock not yet in the cart. It is not clamped, so it
      is negative when the cart holds more than the stock. */
  function RemainingStock(stock: int, cartQuantity: int): (r: int)
    ensures r + cartQuantity == stock
    ensures r > 0 <==> cartQuantity < stock
  {
    stock - cartQuantity
  }

  /** `getProductStockStatus`: "SOLD OUT" once the cart holds the whole stock,
      otherwise the empty string. */
  function StockStatus(stock: int, cartQuantity: int): (s: string)
    ensures s == "SOLD OUT" <==> cartQuantity >= stock
    ensures s == "" <==> RemainingStock(stock, cartQuantity) > 0
  {
    if RemainingStock(stock, cartQuantity) <= 0 then "SOLD OUT" else ""
  }

  /** One more unit in the cart is one unit less remaining. */
  lemma OneMoreInCart(stock: int, cartQuantity: int)
    ensures RemainingStock(stock, cartQuantity + 1) == RemainingStock(stock, cartQuantity) - 1
  {
  }
}
