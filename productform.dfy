/** The admin product form's input handling: editing the list of discount
    tiers, digit-only price and stock input, and the stock clamp on blur. */
module ProductForm {
  import opened ShopTypes
  import opened Text

  const MaxStock: int := 9999

  /** The tier `addDiscount` appends: 10 or more units, 10% off. */
  const DefaultTier: Tier := Tier(10, 0.1)

  datatype ProductFormData = ProductFormData(
    name: string,
    price: int,
    stock: int,
    description: string,
    discounts: seq<Tier>)

  /** `addDiscount`: append the default tier; the other tiers are kept. */
  function AddDiscount(form: ProductFormData): (f: ProductFormData)
    ensures f == form.(discounts := f.discounts)
    ensures |f.discounts| == |form.discounts| + 1
    ensures f.discounts[..|form.discounts|] == form.discounts
    ensures f.discounts[|form.discounts|] == DefaultTier
  {
    form.(discounts := form.discounts + [DefaultTier])
  }

  /** `filter((_, i) => i !== index)`: drop the element at `index`. */
  function DropIndex(s: seq<Tier>, index: int): (r: seq<Tier>)
    ensures 0 <= index < |s| ==> r == s[..index] + s[index + 1..]
    ensures !(0 <= index < |s|) ==> r == s
    decreases |s|
  {
    if s == [] then []
    else
      var rest := DropIndex(s[1..], index - 1);
      if index == 0 then
        assert s[1..] == s[..0] + s[0 + 1..];
        rest
      else
        assert 0 < index < |s| ==> [s[0]] + s[1..][..index - 1] + s[1..][index..] == s[..index] + s[index + 1..];
        [s[0]] + rest
  }

  /** `removeDiscount`: remove exactly the tier at `index`, keeping the order
      of the others; an index outside the list changes nothing. */
  function RemoveDiscount(form: ProductFormData, index: int): (f: ProductFormData)
    ensures f == form.(discounts := f.discounts)
    ensures !(0 <= index < |form.discounts|) ==> f == form
    ensures 0 <= index < |form.discounts| ==> |f.discounts| == |form.discounts| - 1
    ensures forall i :: 0 <= i < |f.discounts| ==>
              f.discounts[i] == if 0 <= index <= i then form.discounts[i + 1] else form.discounts[i]
  {
    form.(discounts := DropIndex(form.discounts, index))
  }

  /** The (field, value) pair `updateDiscount` receives. */
  datatype TierEdit = SetQuantity(quantity: int) | SetRate(rate: real)

  function EditTier(t: Tier, edit: TierEdit): Tier
  {
    match edit
    case SetQuantity(q) => t.(quantity := q)
    case SetRate(r) => t.(rate := r)
  }

  /** `updateDiscount`: set one field of the tier at `index`; the length, the
      other field and every other tier are unchanged. */
  function UpdateDiscount(form: ProductFormData, index: int, edit: TierEdit): (f: ProductFormData)
    requires 0 <= index < |form.discounts|
    ensures f == form.(discounts := f.discounts)
    ensures |f.discounts| == |form.discounts|
    ensures forall i :: 0 <= i < |form.discounts| && i != index ==> f.discounts[i] == form.discounts[i]
    ensures edit.SetQuantity? ==> f.discounts[index] == form.discounts[index].(quantity := edit.quantity)
    ensures edit.SetRate? ==> f.discounts[index] == form.discounts[index].(rate := edit.rate)
  {
    form.(discounts := form.discounts[index := EditTier(form.discounts[index], edit)])
  }

  /** The rate field shows a percentage: an integer `p` typed there is stored
      as the rate p/100 and shown back as exactly `p`. */
  function PercentToRate(p: int): real
  {
    p as real / 100.0
  }

  function RateShown(rate: real): real
  {
    rate * 100.0
  }

  lemma RatePercentRoundTrip(p: int)
    ensures RateShown(PercentToRate(p)) == p as real
  {
  }

  /** The rate field's change handler. */
  function RateInput(form: ProductFormData, index: int, input: string): (f: ProductFormData)
    requires 0 <= index < |form.discounts|
    ensures |f.discounts| == |form.discounts|
    ensures f.discounts[index].quantity == form.discounts[index].quantity
    ensures RateShown(f.discounts[index].rate) == ParseIntOrZero(input) as real
  {
    UpdateDiscount(form, index, SetRate(PercentToRate(ParseIntOrZero(input))))
  }

  /** The tier-quantity field's change handler. */
  function TierQuantityInput(form: ProductFormData, index: int, input: string): (f: ProductFormData)
    requires 0 <= index < |form.discounts|
    ensures |f.discounts| == |form.discounts|
    ensures f.discounts[index] == form.discounts[index].(quantity := ParseIntOrZero(input))
  {
    UpdateDiscount(form, index, SetQuantity(ParseIntOrZero(input)))
  }

  /** The price field's change handler: digits (or empty, meaning 0) replace
      the price; any other input is ignored. */
  function PriceChange(form: ProductFormData, input: string): (f: ProductFormData)
    ensures f == form.(price := f.price)
    ensures !AcceptsNumberInput(input) ==> f == form
    ensures AcceptsNumberInput(input) ==> f.price >= 0 && (input == "" ==> f.price == 0)
    ensures IsDigits(input) ==> f.price == ParseDigits(input)
  {
    if AcceptsNumberInput(input) then form.(price := ParseIntOrZero(input)) else form
  }

  /** The stock field's change handler, the same rule for the stock. */
  function StockChange(form: ProductFormData, input: string): (f: ProductFormData)
    ensures f == form.(stock := f.stock)
    ensures !AcceptsNumberInput(input) ==> f == form
    ensures AcceptsNumberInput(input) ==> f.stock >= 0 && (input == "" ==> f.stock == 0)
    ensures IsDigits(input) ==> f.stock == ParseDigits(input)
  {
    if AcceptsNumberInput(input) then form.(stock := ParseIntOrZero(input)) else form
  }

  /** Typing a numeral stores its number. */
  lemma TypedPriceAndStock(form: ProductFormData, n: nat)
    ensures PriceChange(form, ShowNat(n)).price == n
    ensures StockChange(form, ShowNat(n)).stock == n
  {
    ParseShowNat(n);
  }

  /** The price field's blur handler, reading the text the field shows: an
      empty field or a negative number sets the price to 0; there is no upper
      bound. */
  function PriceBlur(form: ProductFormData): (f: ProductFormData)
    ensures f == form.(price := f.price)
    ensures f.price >= 0
    ensures form.price < 0 ==> f.price == 0
    ensures form.price >= 0 ==> f == form
  {
    var value := FieldText(form.price);
    FieldTextRoundTrip(form.price);
    if value == "" then form.(price := 0)
    else if ParseIntOrZero(value) < 0 then form.(price := 0)
    else form
  }

  /** The notifications the product form's blur handlers raise. */
  datatype FormNotice = PriceBelowZero | StockBelowZero | StockAboveMaximum

  /** The notice the price field's blur handler raises: only a negative
      price warns; an empty field is reset to 0 without one. */
  function PriceBlurNotice(form: ProductFormData): (n: Option<FormNotice>)
    ensures n.Some? <==> form.price < 0
    ensures n.Some? ==> n.value == PriceBelowZero
  {
    var value := FieldText(form.price);
    FieldTextRoundTrip(form.price);
    if value == "" then None
    else if ParseIntOrZero(value) < 0 then Some(PriceBelowZero)
    else None
  }

  /** The stock field's blur handler: empty or negative becomes 0, above 9999
      becomes 9999, anything in range is left as it is. */
  function StockBlur(form: ProductFormData): (f: ProductFormData)
    ensures f == form.(stock := f.stock)
    ensures 0 <= f.stock <= MaxStock
    ensures 0 <= form.stock <= MaxStock ==> f == form
    ensures form.stock < 0 ==> f.stock == 0
    ensures form.stock > MaxStock ==> f.stock == MaxStock
  {
    var value := FieldText(form.stock);
    FieldTextRoundTrip(form.stock);
    if value == "" then form.(stock := 0)
    else if ParseIntOrZero(value) < 0 then form.(stock := 0)
    else if ParseIntOrZero(value) > MaxStock then form.(stock := MaxStock)
    else form
  }

  /** The notice the stock field's blur handler raises: one for a negative
      stock, another for a stock above 9999, none otherwise. */
  function StockBlurNotice(form: ProductFormData): (n: Option<FormNotice>)
    ensures n.Some? <==> form.stock < 0 || form.stock > MaxStock
    ensures form.stock < 0 ==> n == Some(StockBelowZero)
    ensures form.stock > MaxStock ==> n == Some(StockAboveMaximum)
  {
    var value := FieldText(form.stock);
    FieldTextRoundTrip(form.stock);
    if value == "" then None
    else if ParseIntOrZero(value) < 0 then Some(StockBelowZero)
    else if ParseIntOrZero(value) > MaxStock then Some(StockAboveMaximum)
    else None
  }

  /** A blurred field is settled: blurring it again changes nothing and
      raises no notice. */
  lemma BlurSettles(form: ProductFormData)
    ensures PriceBlur(PriceBlur(form)) == PriceBlur(form) && PriceBlurNotice(PriceBlur(form)).None?
    ensures StockBlur(StockBlur(form)) == StockBlur(form) && StockBlurNotice(StockBlur(form)).None?
  {
  }
}
