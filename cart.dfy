/** The shopping cart: a list of `{product, quantity}` lines with lookup,
    add (guarded by remaining stock), remove and set-quantity. The list
    updaters are pure functions; `CartStore` holds the cart state and applies
    them the way the hook's `setCart` calls do. */
module Cart {
  import opened ShopTypes
  import opened Seqs
  import opened Stock

  /** At most one line per product id. */
  predicate UniqueIds(cart: seq<CartItem>)
  {
    DistinctBy(cart, LineId)
  }

  /** Line `i` is the first line for product `id`. */
  predicate IsFirstLine(cart: seq<CartItem>, id: string, i: int)
  {
    0 <= i < |cart| && cart[i].product.id == id &&
    forall j :: 0 <= j < i ==> cart[j].product.id != id
  }

  /** `cart.find(item => item.product.id === id)`. */
  function FindLine(cart: seq<CartItem>, id: string): (r: Option<CartItem>)
    ensures r.None? <==> forall i :: 0 <= i < |cart| ==> cart[i].product.id != id
    ensures r.Some? ==> r.value.product.id == id
    decreases |cart|
  {
    if cart == [] then None
    else if cart[0].product.id == id then Some(cart[0])
    else
      var r := FindLine(cart[1..], id);
      assert forall i :: 1 <= i < |cart| ==> cart[i] == cart[1..][i - 1];
      r
  }

  /** The search stops at the first line for `id`. */
  lemma {:induction false} FindFirstLine(cart: seq<CartItem>, id: string, i: int)
    requires IsFirstLine(cart, id, i)
    ensures FindLine(cart, id) == Some(cart[i])
    decreases |cart|
  {
    if i > 0 {
      assert IsFirstLine(cart[1..], id, i - 1) by {
        forall j | 0 <= j < i - 1 ensures cart[1..][j].product.id != id {
          assert cart[1..][j] == cart[j + 1];
        }
      }
      FindFirstLine(cart[1..], id, i - 1);
    }
  }

  /** `getCartQuantity`: the quantity of the first line for `id`, or 0 when
      the product is not in the cart. */
  function GetCartQuantity(cart: seq<CartItem>, id: string): (q: int)
    ensures (forall i :: 0 <= i < |cart| ==> cart[i].product.id != id) ==> q == 0
  {
    match FindLine(cart, id)
    case Some(item) => item.quantity
    case None => 0
  }

  /** The lookup returns the quantity of the product's first line; with unique
      ids, that is its only line. */
  lemma QuantityOfLine(cart: seq<CartItem>, i: int)
    requires UniqueIds(cart) && 0 <= i < |cart|
    ensures GetCartQuantity(cart, cart[i].product.id) == cart[i].quantity
  {
    assert IsFirstLine(cart, cart[i].product.id, i) by {
      forall j | 0 <= j < i ensures cart[j].product.id != cart[i].product.id {
        assert LineId(cart[j]) != LineId(cart[i]);
      }
    }
    FindFirstLine(cart, cart[i].product.id, i);
  }

  function KeepOtherLines(id: string): CartItem -> bool
  {
    (item: CartItem) => item.product.id != id
  }

  /** `removeFromCart`'s updater: drop every line for `id`, keep the rest in
      order. */
  function RemoveLines(cart: seq<CartItem>, id: string): (r: seq<CartItem>)
    ensures forall i :: 0 <= i < |r| ==> r[i].product.id != id && r[i] in cart
    ensures forall i :: 0 <= i < |cart| && cart[i].product.id != id ==> cart[i] in r
    ensures GetCartQuantity(r, id) == 0
  {
    Filter(cart, KeepOtherLines(id))
  }

  /** Removal keeps the order of the remaining lines, and keeps ids unique. */
  lemma RemoveLinesShape(cart: seq<CartItem>, id: string)
    ensures IsSubsequence(RemoveLines(cart, id), cart)
    ensures UniqueIds(cart) ==> UniqueIds(RemoveLines(cart, id))
  {
    FilterIsSubsequence(cart, KeepOtherLines(id));
    if UniqueIds(cart) {
      FilterKeepsDistinct(cart, KeepOtherLines(id), LineId);
    }
  }

  /** Removal does not change the quantity of any other product. */
  lemma {:induction false} RemoveLinesKeepsOthers(cart: seq<CartItem>, id: string, other: string)
    requires other != id
    ensures GetCartQuantity(RemoveLines(cart, id), other) == GetCartQuantity(cart, other)
    decreases |cart|
  {
    if cart != [] {
      RemoveLinesKeepsOthers(cart[1..], id, other);
      var rest := Filter(cart[1..], KeepOtherLines(id));
      if cart[0].product.id != id {
        assert RemoveLines(cart, id) == [cart[0]] + rest;
        assert ([cart[0]] + rest)[1..] == rest;
      } else {
        assert RemoveLines(cart, id) == rest;
      }
    }
  }

  /** The line `item` with quantity `q` if it is a line for `id`. */
  function SetIfFor(item: CartItem, id: string, q: int): CartItem
  {
    if item.product.id == id then item.(quantity := q) else item
  }

  /** The `map` that sets the quantity of every line for `id` to `q`; all
      other lines are untouched. */
  function SetLineQuantity(cart: seq<CartItem>, id: string, q: int): (r: seq<CartItem>)
    ensures |r| == |cart|
    ensures forall i :: 0 <= i < |cart| ==> r[i].product == cart[i].product
    ensures forall i :: 0 <= i < |cart| ==>
              r[i].quantity == if cart[i].product.id == id then q else cart[i].quantity
  {
    seq(|cart|, i requires 0 <= i < |cart| => SetIfFor(cart[i], id, q))
  }

  /** Setting a quantity keeps ids unique. */
  lemma SetLineQuantityKeepsUniqueIds(cart: seq<CartItem>, id: string, q: int)
    requires UniqueIds(cart)
    ensures UniqueIds(SetLineQuantity(cart, id, q))
  {
    SameKeysKeepDistinct(cart, SetLineQuantity(cart, id, q), LineId);
  }

  /** After setting a quantity, the lookup for `id` yields `q` if the product
      is in the cart, and every other product's quantity is unchanged. */
  lemma {:induction false} SetLineQuantityLookup(cart: seq<CartItem>, id: string, q: int, other: string)
    ensures GetCartQuantity(SetLineQuantity(cart, id, q), other) ==
            if other == id && FindLine(cart, id).Some? then q else GetCartQuantity(cart, other)
    decreases |cart|
  {
    if cart != [] {
      SetLineQuantityLookup(cart[1..], id, q, other);
      assert SetLineQuantity(cart, id, q)[1..] == SetLineQuantity(cart[1..], id, q);
    }
  }

  /** `addToCart`'s inner check: the product is in the list but one more unit
      would exceed its stock. */
  predicate AddRejected(prevCart: seq<CartItem>, product: Product)
    ensures AddRejected(prevCart, product) <==>
            FindLine(prevCart, product.id).Some? && GetCartQuantity(prevCart, product.id) >= product.stock
  {
    var existing := FindLine(prevCart, product.id);
    existing.Some? && existing.value.quantity + 1 > product.stock
  }

  /** `addToCart`'s updater: raise an existing line by one (unless that
      exceeds the stock), or append a new line of one unit. */
  function AddUpdate(prevCart: seq<CartItem>, product: Product): (r: seq<CartItem>)
    ensures AddRejected(prevCart, product) ==> r == prevCart
    ensures FindLine(prevCart, product.id).None? ==> r == prevCart + [CartItem(product, 1)]
  {
    var existing := FindLine(prevCart, product.id);
    if existing.None? then prevCart + [CartItem(product, 1)]
    else
      var newQuantity := existing.value.quantity + 1;
      if newQuantity > product.stock then prevCart
      else SetLineQuantity(prevCart, product.id, newQuantity)
  }

  /** A new line goes at the end: the lookup finds the lines before unchanged
      and the new product with one unit. */
  lemma {:induction false} AppendLookup(cart: seq<CartItem>, item: CartItem, other: string)
    requires FindLine(cart, item.product.id).None?
    ensures GetCartQuantity(cart + [item], other) ==
            if other == item.product.id then item.quantity else GetCartQuantity(cart, other)
    decreases |cart|
  {
    if cart != [] {
      AppendLookup(cart[1..], item, other);
      assert (cart + [item])[1..] == cart[1..] + [item];
    }
  }

  /** When the product is in the cart and one more unit fits the stock, the
      updater is the `map` that sets its quantity to `newQuantity`. */
  lemma AddUpdateRaises(prevCart: seq<CartItem>, product: Product, newQuantity: int)
    requires FindLine(prevCart, product.id).Some?
    requires newQuantity == FindLine(prevCart, product.id).value.quantity + 1 <= product.stock
    ensures AddUpdate(prevCart, product) == SetLineQuantity(prevCart, product.id, newQuantity)
  {
  }

  /** `addToCart`'s updater raises the product's quantity by exactly one
      unless it rejects the addition (then the cart is unchanged). */
  lemma AddUpdateIncrements(prevCart: seq<CartItem>, product: Product)
    requires !AddRejected(prevCart, product)
    ensures GetCartQuantity(AddUpdate(prevCart, product), product.id) == GetCartQuantity(prevCart, product.id) + 1
  {
    var found := FindLine(prevCart, product.id);
    if found.Some? {
      SetLineQuantityLookup(prevCart, product.id, found.value.quantity + 1, product.id);
    } else {
      AppendLookup(prevCart, CartItem(product, 1), product.id);
    }
  }

  /** `addToCart`'s updater leaves every other product's quantity unchanged. */
  lemma AddUpdateKeepsOthers(prevCart: seq<CartItem>, product: Product, other: string)
    requires other != product.id
    ensures GetCartQuantity(AddUpdate(prevCart, product), other) == GetCartQuantity(prevCart, other)
  {
    match FindLine(prevCart, product.id)
    case None =>
      AppendLookup(prevCart, CartItem(product, 1), other);
    case Some(line) =>
      if line.quantity + 1 <= product.stock {
        RaisedLineKeepsOthers(prevCart, product, line.quantity + 1, other);
      }
  }

  /** Case of `AddUpdateKeepsOthers` where the product's line is raised to
      `newQuantity`, one more than before. */
  lemma RaisedLineKeepsOthers(prevCart: seq<CartItem>, product: Product, newQuantity: int, other: string)
    requires other != product.id
    requires FindLine(prevCart, product.id).Some?
    requires newQuantity == FindLine(prevCart, product.id).value.quantity + 1 <= product.stock
    ensures GetCartQuantity(AddUpdate(prevCart, product), other) == GetCartQuantity(prevCart, other)
  {
    AddUpdateRaises(prevCart, product, newQuantity);
    SetLineQuantityLookup(prevCart, product.id, newQuantity, other);
  }

  /** `addToCart`'s updater keeps at most one line per product. */
  lemma AddUpdateKeepsUniqueIds(prevCart: seq<CartItem>, product: Product)
    requires UniqueIds(prevCart)
    ensures UniqueIds(AddUpdate(prevCart, product))
  {
    var found := FindLine(prevCart, product.id);
    if found.Some? {
      var newQuantity := found.value.quantity + 1;
      if newQuantity <= product.stock {
        SetLineQuantityKeepsUniqueIds(prevCart, product.id, newQuantity);
      }
    } else {
      AppendKeepsDistinct(prevCart, CartItem(product, 1), LineId);
    }
  }

  /** The early stock guard of `addToCart` (remaining stock > 0, read from the
      same cart) makes the updater's own stock check unreachable. */
  lemma GuardRulesOutRejection(cart: seq<CartItem>, product: Product)
    requires RemainingStock(product.stock, GetCartQuantity(cart, product.id)) > 0
    ensures !AddRejected(cart, product)
  {
  }

  /** `products.find(p => p.id === id)`. */
  function FindProduct(products: seq<Product>, id: string): (r: Option<Product>)
    ensures r.None? <==> forall i :: 0 <= i < |products| ==> products[i].id != id
    ensures r.Some? ==> r.value in products && r.value.id == id
    decreases |products|
  {
    if products == [] then None
    else if products[0].id == id then Some(products[0])
    else
      assert forall i :: 1 <= i < |products| ==> products[i] == products[1..][i - 1];
      FindProduct(products[1..], id)
  }

  /** The search returns the first product with the id. */
  lemma {:induction false} FindFirstProduct(products: seq<Product>, id: string, i: int)
    requires 0 <= i < |products| && products[i].id == id
    requires forall j :: 0 <= j < i ==> products[j].id != id
    ensures FindProduct(products, id) == Some(products[i])
    decreases |products|
  {
    if i > 0 {
      assert forall j :: 0 <= j < i - 1 ==> products[1..][j] == products[j + 1];
      FindFirstProduct(products[1..], id, i - 1);
    }
  }

  /** The notifications the cart operations raise. */
  datatype CartNotice = InsufficientStock | StockLimit(stock: int) | AddedToCart

  class CartStore {
    var cart: seq<CartItem>

    ghost predicate Valid()
      reads this
    {
      UniqueIds(cart)
    }

    constructor (initial: seq<CartItem>)
      ensures cart == initial
      ensures UniqueIds(initial) ==> Valid()
    {
      cart := initial;
    }

    /** `addToCart`: refuse when no stock remains; otherwise apply the
        updater and report success. */
    method AddToCart(product: Product) returns (notices: seq<CartNotice>)
      modifies this
      ensures RemainingStock(product.stock, GetCartQuantity(old(cart), product.id)) <= 0 ==>
                cart == old(cart) && notices == [InsufficientStock]
      ensures RemainingStock(product.stock, GetCartQuantity(old(cart), product.id)) > 0 ==>
                cart == AddUpdate(old(cart), product) && notices == [AddedToCart] &&
                GetCartQuantity(cart, product.id) == GetCartQuantity(old(cart), product.id) + 1
      ensures old(Valid()) ==> Valid()
    {
      var cartQuantity := GetCartQuantity(cart, product.id);
      var remainingStock := RemainingStock(product.stock, cartQuantity);
      if remainingStock <= 0 {
        notices := [InsufficientStock];
        return;
      }
      GuardRulesOutRejection(cart, product);
      AddUpdateIncrements(cart, product);
      if Valid() {
        AddUpdateKeepsUniqueIds(cart, product);
      }
      notices := if AddRejected(cart, product) then [StockLimit(product.stock)] else [];
      cart := AddUpdate(cart, product);
      notices := notices + [AddedToCart];
    }

    /** `removeFromCart`. */
    method RemoveFromCart(productId: string)
      modifies this
      ensures cart == RemoveLines(old(cart), productId)
      ensures old(Valid()) ==> Valid()
    {
      RemoveLinesShape(cart, productId);
      cart := RemoveLines(cart, productId);
    }

    /** `updateQuantity`: a non-positive quantity removes the line; an unknown
        product or a quantity above its stock changes nothing; otherwise the
        product's line gets the new quantity. */
    method UpdateQuantity(products: seq<Product>, productId: string, newQuantity: int) returns (notices: seq<CartNotice>)
      modifies this
      ensures newQuantity <= 0 ==> cart == RemoveLines(old(cart), productId) && notices == []
      ensures newQuantity > 0 && FindProduct(products, productId).None? ==> cart == old(cart) && notices == []
      ensures newQuantity > 0 && FindProduct(products, productId).Some? ==>
                var stock := FindProduct(products, productId).value.stock;
                if newQuantity > stock then cart == old(cart) && notices == [StockLimit(stock)]
                else cart == SetLineQuantity(old(cart), productId, newQuantity) && notices == []
      ensures old(Valid()) ==> Valid()
    {
      notices := [];
      if newQuantity <= 0 {
        RemoveFromCart(productId);
        return;
      }
      var product := FindProduct(products, productId);
      if product.None? {
        return;
      }
      var maxStock := product.value.stock;
      if newQuantity > maxStock {
        notices := [StockLimit(maxStock)];
        return;
      }
      if Valid() {
        SetLineQuantityKeepsUniqueIds(cart, productId, newQuantity);
      }
      cart := SetLineQuantity(cart, productId, newQuantity);
    }
  }

}
