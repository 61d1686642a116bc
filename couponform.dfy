/** The admin coupon form's input handling: the discount value accepts only
    digits, is clamped to its type's range when the field loses focus, and
    the code is stored upper-cased. */
module CouponForm {
  import opened ShopTypes
  import opened Text

  const MaxPercentage: int := 100
  const MaxAmount: int := 100000

  datatype CouponFormData = CouponFormData(name: string, code: string, discountType: DiscountType, discountValue: int)

  /** The upper end of the discount value's range for a coupon type. */
  function MaxValue(t: DiscountType): int
  {
    if t == Percentage then MaxPercentage else MaxAmount
  }

  /** `handleDiscountValueChange`: an empty or all-digit input becomes the new
      discount value (empty means 0); any other input is ignored. Only the
      discount value can change. */
  function DiscountValueChange(form: CouponFormData, input: string): (f: CouponFormData)
    ensures f.name == form.name && f.code == form.code && f.discountType == form.discountType
    ensures !AcceptsNumberInput(input) ==> f == form
    ensures AcceptsNumberInput(input) ==> f.discountValue >= 0 && (input == "" ==> f.discountValue == 0)
    ensures IsDigits(input) ==> f.discountValue == ParseDigits(input)
  {
    if AcceptsNumberInput(input) then form.(discountValue := ParseIntOrZero(input)) else form
  }

  /** Typing the numeral of a non-negative number stores that number. */
  lemma TypedNumberStored(form: CouponFormData, n: nat)
    ensures DiscountValueChange(form, ShowNat(n)).discountValue == n
    ensures DiscountValueChange(form, "").discountValue == 0
  {
    ParseShowNat(n);
  }

  /** The value the blur handler reads: the text the field shows, parsed. */
  function ShownValue(form: CouponFormData): int
  {
    ParseIntOrZero(FieldText(form.discountValue))
  }

  /** The field shows exactly the stored discount value. */
  lemma ShownValueIsStored(form: CouponFormData)
    ensures ShownValue(form) == form.discountValue
  {
    FieldTextRoundTrip(form.discountValue);
  }

  /** `handleDiscountValueBlur`: a value above the type's maximum (100 for a
      percentage, 100000 for an amount) becomes the maximum, a negative value
      becomes 0, anything in range is left as it is. */
  function DiscountValueBlur(form: CouponFormData): (f: CouponFormData)
    ensures f.name == form.name && f.code == form.code && f.discountType == form.discountType
    ensures 0 <= f.discountValue <= MaxValue(form.discountType)
    ensures 0 <= form.discountValue <= MaxValue(form.discountType) ==> f == form
    ensures form.discountValue > MaxValue(form.discountType) ==> f.discountValue == MaxValue(form.discountType)
    ensures form.discountValue < 0 ==> f.discountValue == 0
  {
    var value := ShownValue(form);
    ShownValueIsStored(form);
    if form.discountType == Percentage then
      if value > MaxPercentage then form.(discountValue := MaxPercentage)
      else if value < 0 then form.(discountValue := 0)
      else form
    else
      if value > MaxAmount then form.(discountValue := MaxAmount)
      else if value < 0 then form.(discountValue := 0)
      else form
  }

  /** The blur handler warns exactly when it lowers the value to the maximum. */
  predicate BlurWarns(form: CouponFormData)
    ensures BlurWarns(form) <==> form.discountValue > MaxValue(form.discountType)
  {
    ShownValueIsStored(form);
    ShownValue(form) > MaxValue(form.discountType)
  }

  /** Blurring twice is blurring once. */
  lemma BlurIdempotent(form: CouponFormData)
    ensures DiscountValueBlur(DiscountValueBlur(form)) == DiscountValueBlur(form)
    ensures !BlurWarns(DiscountValueBlur(form))
  {
    ShownValueIsStored(DiscountValueBlur(form));
  }

  /** The code field's change handler: the code is stored upper-cased. */
  function CodeChange(form: CouponFormData, input: string): (f: CouponFormData)
    ensures f.name == form.name && f.discountType == form.discountType && f.discountValue == form.discountValue
    ensures |f.code| == |input|
    ensures forall i :: 0 <= i < |f.code| ==> !IsLower(f.code[i]) && f.code[i] == UpperChar(input[i])
  {
    form.(code := Upper(input))
  }

  /** Re-entering the code the field shows changes nothing. */
  lemma CodeChangeStable(form: CouponFormData, input: string)
    ensures CodeChange(CodeChange(form, input), CodeChange(form, input).code) == CodeChange(form, input)
  {
    UpperIdempotent(input);
  }
}
