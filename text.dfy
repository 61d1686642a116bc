/** Text helpers the shop relies on: ASCII case mapping (`toLowerCase`,
    `toUpperCase`), substring search (`includes`), the `/^\d+$/` digit test and
    decimal conversion (`parseInt` on a digit string, and the number shown back
    in an input field). */
module Text {

  predicate IsUpper(c: char) { 'A' <= c <= 'Z' }

  predicate IsLower(c: char) { 'a' <= c <= 'z' }

  function LowerChar(c: char): (d: char)
    ensures !IsUpper(d)
    ensures !IsUpper(c) ==> d == c
  {
    if IsUpper(c) then (c as int - 'A' as int + 'a' as int) as char else c
  }

  function UpperChar(c: char): (d: char)
    ensures !IsLower(d)
    ensures !IsLower(c) ==> d == c
  {
    if IsLower(c) then (c as int - 'a' as int + 'A' as int) as char else c
  }

  function Lower(s: string): (r: string)
    ensures |r| == |s|
    ensures forall i :: 0 <= i < |s| ==> r[i] == LowerChar(s[i])
  {
    seq(|s|, i requires 0 <= i < |s| => LowerChar(s[i]))
  }

  function Upper(s: string): (r: string)
    ensures |r| == |s|
    ensures forall i :: 0 <= i < |s| ==> r[i] == UpperChar(s[i])
  {
    seq(|s|, i requires 0 <= i < |s| => UpperChar(s[i]))
  }

  /** Lower-casing twice is lower-casing once. */
  lemma LowerIdempotent(s: string)
    ensures Lower(Lower(s)) == Lower(s)
  {
  }

  /** Upper-casing twice is upper-casing once. */
  lemma UpperIdempotent(s: string)
    ensures Upper(Upper(s)) == Upper(s)
  {
  }

  /** `hay.includes(needle)`: `needle` occurs in `hay` at some offset. */
  predicate Contains(hay: string, needle: string)
    ensures needle <= hay ==> Contains(hay, needle)
    ensures Contains(hay, needle) ==> |needle| <= |hay|
    decreases |hay|
  {
    needle <= hay || (|hay| > 0 && Contains(hay[1..], needle))
  }

  /** `needle` sits in `hay` starting at offset `k`. */
  predicate OccursAt(hay: string, needle: string, k: int)
  {
    0 <= k && k + |needle| <= |hay| && hay[k..k + |needle|] == needle
  }

  /** The recursive search succeeds exactly when there is an offset where
      the needle occurs. */
  lemma {:induction false} ContainsAt(hay: string, needle: string)
    ensures Contains(hay, needle) <==> exists k :: OccursAt(hay, needle, k)
    decreases |hay|
  {
    if needle <= hay {
      assert OccursAt(hay, needle, 0);
    } else if |hay| > 0 {
      ContainsAt(hay[1..], needle);
      if Contains(hay[1..], needle) {
        var k :| OccursAt(hay[1..], needle, k);
        assert OccursAt(hay, needle, k + 1) by {
          assert hay[k + 1..k + 1 + |needle|] == hay[1..][k..k + |needle|];
        }
      } else {
        forall k | 0 < k && k + |needle| <= |hay| ensures !OccursAt(hay, needle, k) {
          assert hay[k..k + |needle|] == hay[1..][k - 1..k - 1 + |needle|];
          assert !OccursAt(hay[1..], needle, k - 1);
        }
        assert !OccursAt(hay, needle, 0);
      }
    }
  }

  predicate IsDigit(c: char) { '0' <= c <= '9' }

  /** `/^\d+$/.test(s)`: a non-empty string of ASCII digits. */
  predicate IsDigits(s: string)
  {
    |s| > 0 && forall i :: 0 <= i < |s| ==> IsDigit(s[i])
  }

  /** The numeric fields' input filter, `value === '' || /^\d+$/.test(value)`:
      the empty text or digits only. */
  predicate AcceptsNumberInput(s: string)
    ensures AcceptsNumberInput(s) <==> forall i :: 0 <= i < |s| ==> IsDigit(s[i])
  {
    s == "" || IsDigits(s)
  }

  function DigitValue(c: char): (d: nat)
    requires IsDigit(c)
    ensures d < 10
  {
    c as int - '0' as int
  }

  /** `parseInt(s)` for a string of digits (leading zeros allowed). */
  function ParseDigits(s: string): (n: nat)
    requires forall i :: 0 <= i < |s| ==> IsDigit(s[i])
    decreases |s|
  {
    if s == [] then 0
    else 10 * ParseDigits(s[..|s| - 1]) + DigitValue(s[|s| - 1])
  }

  /** The decimal numeral of `n`, as an input field shows a number. */
  function ShowNat(n: nat): (s: string)
    ensures |s| > 0 && forall i :: 0 <= i < |s| ==> IsDigit(s[i])
    decreases n
  {
    if n < 10 then [('0' as int + n) as char]
    else ShowNat(n / 10) + [('0' as int + n % 10) as char]
  }

  /** Typing back the numeral a field shows yields the same number. */
  lemma {:induction false} ParseShowNat(n: nat)
    ensures IsDigits(ShowNat(n))
    ensures ParseDigits(ShowNat(n)) == n
    decreases n
  {
    var s := ShowNat(n);
    if n >= 10 {
      ParseShowNat(n / 10);
      assert s[..|s| - 1] == ShowNat(n / 10);
    }
  }

  /** `parseInt(s) || 0` on the strings an input field holds here: the empty
      string, a run of digits, or a minus sign followed by digits; anything
      else counts as 0. */
  function ParseIntOrZero(s: string): (n: int)
    ensures IsDigits(s) ==> n == ParseDigits(s)
    ensures s == "" ==> n == 0
  {
    if IsDigits(s) then ParseDigits(s)
    else if |s| > 1 && s[0] == '-' && IsDigits(s[1..]) then 0 - ParseDigits(s[1..]) as int
    else 0
  }

  /** What a numeric form field shows for `v`: `v === 0 ? '' : v`. */
  function FieldText(v: int): (s: string)
    ensures s == "" <==> v == 0
  {
    if v == 0 then "" else if v > 0 then ShowNat(v) else "-" + ShowNat(-v)
  }

  /** Reading back the text a field shows yields the value it shows. */
  lemma FieldTextRoundTrip(v: int)
    ensures ParseIntOrZero(FieldText(v)) == v
  {
    if v > 0 {
      ParseShowNat(v);
    } else if v < 0 {
      ParseShowNat(-v);
      var s := FieldText(v);
      assert s[1..] == ShowNat(-v);
      assert !IsDigits(s) by { assert !IsDigit(s[0]); }
    }
  }
}
