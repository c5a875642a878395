/**
 * Integer widths, Rust's integer `FromStr` (`str::parse`), and the decimal
 * (`{}`) and padded upper-case hexadecimal (`{:#06X}`) formats.
 */
module Numbers {
  import opened Common
  import opened Text

  const U8_MAX: int := 0xFF
  const U16_MAX: int := 0xFFFF
  const U32_MAX: int := 0xFFFF_FFFF
  const I32_MIN: int := -0x8000_0000
  const I32_MAX: int := 0x7FFF_FFFF
  const I64_MIN: int := -0x8000_0000_0000_0000
  const I64_MAX: int := 0x7FFF_FFFF_FFFF_FFFF

  type u8 = x: int | 0 <= x <= U8_MAX
  type u16 = x: int | 0 <= x <= U16_MAX

  predicate IsDigit(c: char)
  {
    '0' <= c <= '9'
  }

  predicate AllDigits(s: string)
  {
    forall k :: 0 <= k < |s| ==> IsDigit(s[k])
  }

  /** The number a string of decimal digits denotes (leading zeros allowed). */
  function DigitsValue(s: string): nat
    requires AllDigits(s)
  {
    if s == [] then 0 else DigitsValue(s[..|s| - 1]) * 10 + (s[|s| - 1] as int - '0' as int)
  }

  /**
   * Rust's `FromStr` for the integer type whose range is `lo..=hi` (signed
   * when `lo < 0`): one optional `+` (or `-` for a signed type), then one or
   * more decimal digits, and the value must fit the type.
   */
  function ParseInteger(s: string, lo: int, hi: int): (r: Option<int>)
    ensures r.Some? ==> lo <= r.value <= hi
    ensures r.Some? ==> exists k :: 0 <= k < |s| && IsDigit(s[k])
    // digits alone: their value, if the type holds it
    ensures s != [] && AllDigits(s) ==>
              r == if lo <= DigitsValue(s) <= hi then Some(DigitsValue(s)) else None
    // a sign, then digits
    ensures |s| > 1 && s[0] == '+' && AllDigits(s[1..]) ==>
              r == if lo <= DigitsValue(s[1..]) <= hi then Some(DigitsValue(s[1..])) else None
    ensures |s| > 1 && s[0] == '-' && lo < 0 && AllDigits(s[1..]) ==>
              r == if lo <= 0 - (DigitsValue(s[1..]) as int) <= hi then Some(0 - (DigitsValue(s[1..]) as int)) else None
    // everything else is an error
    ensures s == [] || s == "+" || s == "-" ==> r.None?
    ensures s != [] && !IsDigit(s[0]) && s[0] != '+' && !(s[0] == '-' && lo < 0) ==> r.None?
    ensures (exists k :: 0 < k < |s| && !IsDigit(s[k])) ==> r.None?
  {
    var (negative, digits) :=
      if s != [] && s[0] == '+' then (false, s[1..])
      else if s != [] && s[0] == '-' && lo < 0 then (true, s[1..])
      else (false, s);
    if digits == [] || !AllDigits(digits) then None
    else
      assert IsDigit(s[|s| - 1]) by { assert s[|s| - 1] == digits[|digits| - 1]; }
      var v: int := if negative then 0 - (DigitsValue(digits) as int) else DigitsValue(digits);
      if lo <= v <= hi then Some(v) else None
  }

  function DigitChar(d: nat): (c: char)
    requires d < 10
    ensures IsDigit(c) && c as int - '0' as int == d
  {
    (d + '0' as int) as char
  }

  /** `{}` of a non-negative integer: its decimal digits, no sign, no padding. */
  function ShowNat(n: nat): (r: string)
    ensures r != [] && AllDigits(r)
    ensures DigitsValue(r) == n
    ensures |r| > 1 ==> r[0] != '0'
  {
    if n < 10 then [DigitChar(n)]
    else
      var r := ShowNat(n / 10) + [DigitChar(n % 10)];
      assert r[..|r| - 1] == ShowNat(n / 10);
      r
  }

  /** `{}` of an integer: a `-` before the digits of a negative one. */
  function ShowInt(v: int): (r: string)
    ensures r != []
    ensures v >= 0 ==> r == ShowNat(v)
    ensures v < 0 ==> r == "-" + ShowNat(-v)
  {
    if v < 0 then "-" + ShowNat(-v) else ShowNat(v)
  }

  /** Decimal text holds no whitespace, so trimming leaves it alone. */
  lemma DigitsTrim(s: string)
    requires AllDigits(s)
    ensures Trim(s) == s
  {
    forall k | 0 <= k < |s| ensures !IsWhitespace(s[k]) {
      assert IsDigit(s[k]);
    }
    TrimNoWhitespace(s);
  }

  /** Parsing what `{}` printed gives the value back, for every value of the type. */
  lemma ParseShowInt(v: int, lo: int, hi: int)
    requires lo <= v <= hi
    ensures ParseInteger(ShowInt(v), lo, hi) == Some(v)
  {
    var s := ShowInt(v);
    if v < 0 {
      assert s[0] == '-' && s[1..] == ShowNat(-v);
    } else {
      assert IsDigit(s[0]);
    }
  }

  /** The upper-case hexadecimal digits, in order of value. */
  const HEX_DIGITS: string := "0123456789ABCDEF"

  predicate IsUpperHexDigit(c: char)
  {
    ('0' <= c <= '9') || ('A' <= c <= 'F')
  }

  predicate AllUpperHex(s: string)
  {
    forall k :: 0 <= k < |s| ==> IsUpperHexDigit(s[k])
  }

  function HexDigitValue(c: char): (d: nat)
    requires IsUpperHexDigit(c)
    ensures d < 16 && HEX_DIGITS[d] == c
  {
    if c <= '9' then c as int - '0' as int else c as int - 'A' as int + 10
  }

  /** The number a string of upper-case hexadecimal digits denotes. */
  function HexValue(s: string): nat
    requires AllUpperHex(s)
  {
    if s == [] then 0 else HexValue(s[..|s| - 1]) * 16 + HexDigitValue(s[|s| - 1])
  }

  function Pow16(w: nat): (p: nat)
    ensures p >= 1
  {
    if w == 0 then 1 else 16 * Pow16(w - 1)
  }

  /** The low `w` hexadecimal digits of `v`, upper case, padded with zeros. */
  function HexPadded(v: nat, w: nat): (r: string)
    ensures |r| == w && AllUpperHex(r)
    ensures v < Pow16(w) ==> HexValue(r) == v
  {
    if w == 0 then []
    else
      var r := HexPadded(v / 16, w - 1) + [HEX_DIGITS[v % 16]];
      assert r[..|r| - 1] == HexPadded(v / 16, w - 1);
      assert HexDigitValue(r[|r| - 1]) == v % 16;
      assert v < Pow16(w) ==> v / 16 < Pow16(w - 1);
      r
  }

  /**
   * `{:#06X}` of a `u16`: the prefix `0x`, then the value in upper-case
   * hexadecimal zero-padded to a total width of six; a `u16` never needs
   * more than four digits, so the padding always brings it to exactly four.
   */
  function FormatHex06(v: u16): (r: string)
    ensures |r| == 6 && r[..2] == "0x"
    ensures AllUpperHex(r[2..]) && HexValue(r[2..]) == v
  {
    assert Pow16(4) == 0x1_0000;
    var r := "0x" + HexPadded(v, 4);
    assert r[2..] == HexPadded(v, 4);
    r
  }
}
