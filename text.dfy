/**
 * The .NET character and number services the codec relies on:
 * `Char.IsLetter`, `IsDigit`, `IsNumber`, `IsLetterOrDigit`, `IsWhiteSpace`, a hexadecimal digit test,
 * `Int32.ToString`, `Int32.Parse`, `Int32.TryParse` and `Char.ConvertFromUtf32`.
 *
 * The letter and number classes follow the Unicode general categories exactly on Latin-1
 * (U+0000..U+00FF) and treat every character above Latin-1 as neither a letter nor a number.
 * In particular `IsDigit` misses the decimal digits of other scripts (category Nd above
 * U+00FF, such as U+0660..U+0669, U+06F0..U+06F9 and U+FF10..U+FF19), which `Char.IsDigit`
 * accepts. The hexadecimal digit test is taken as ASCII only.
 * `IsWhiteSpace` is exact for the whole range.
 */
module Text {
  import opened Wrappers
  import opened Exceptions

  newtype int32 = x: int | -0x8000_0000 <= x < 0x8000_0000

  const Int32MaxValue: int := 0x7FFF_FFFF

  // ---------------------------------------------------------------- character classes

  /** `Char.IsLetter` on Latin-1: categories Lu, Ll and Lo. */
  predicate IsLetter(c: char)
  {
    ('A' <= c <= 'Z') || ('a' <= c <= 'z') || c == '\U{00AA}' || c == '\U{00B5}' || c == '\U{00BA}'
    || ('\U{00C0}' <= c <= '\U{00D6}') || ('\U{00D8}' <= c <= '\U{00F6}') || ('\U{00F8}' <= c <= '\U{00FF}')
  }

  /** `Char.IsDigit` on Latin-1: category Nd, the ASCII digits; digits of other scripts are not modelled. */
  predicate IsDigit(c: char)
  {
    '0' <= c <= '9'
  }

  /** `Char.IsNumber` on Latin-1: categories Nd and No (superscripts two, three, one and the vulgar fractions). */
  predicate IsNumber(c: char)
  {
    IsDigit(c) || c == '\U{00B2}' || c == '\U{00B3}' || c == '\U{00B9}' || ('\U{00BC}' <= c <= '\U{00BE}')
  }

  predicate IsLetterOrDigit(c: char)
  {
    IsLetter(c) || IsDigit(c)
  }

  /** `Char.IsWhiteSpace`: categories Zs, Zl and Zp, plus U+0009..U+000D and U+0085. */
  predicate IsWhiteSpace(c: char)
  {
    ('\U{0009}' <= c <= '\U{000D}') || c == ' ' || c == '\U{0085}' || c == '\U{00A0}' || c == '\U{1680}'
    || ('\U{2000}' <= c <= '\U{200A}') || c == '\U{2028}' || c == '\U{2029}' || c == '\U{202F}'
    || c == '\U{205F}' || c == '\U{3000}'
  }

  /** The hexadecimal digit test of the reader (`Chars.IsHexDigit`, not part of this model): ASCII `0-9`, `a-f`, `A-F`. */
  predicate IsHexDigit(c: char)
  {
    IsDigit(c) || ('a' <= c <= 'f') || ('A' <= c <= 'F')
  }

  function HexDigitValue(c: char): (d: nat)
    requires IsHexDigit(c)
    ensures d < 16
    ensures IsDigit(c) <==> d < 10
  {
    if IsDigit(c) then c as int - '0' as int
    else if 'a' <= c <= 'f' then c as int - 'a' as int + 10
    else c as int - 'A' as int + 10
  }

  // ---------------------------------------------------------------- formatting

  function DigitChar(d: nat): (c: char)
    requires d < 10
    ensures IsDigit(c) && HexDigitValue(c) == d
  {
    ('0' as int + d) as char
  }

  /** Invariant-culture decimal text of a natural number. */
  function NatText(n: nat): (s: string)
    ensures |s| > 0
    ensures forall i :: 0 <= i < |s| ==> IsDigit(s[i])
    ensures s[0] == '0' <==> n == 0
  {
    if n < 10 then [DigitChar(n)] else NatText(n / 10) + [DigitChar(n % 10)]
  }

  /** `Int32.ToString(CultureInfo.InvariantCulture)`: the negative sign is `-`. */
  function Int32Text(v: int32): (s: string)
    ensures |s| > 0
    ensures s[0] == '-' <==> v < 0
    ensures v >= 0 ==> s == NatText(v as int)
  {
    if v < 0 then "-" + NatText(-(v as int)) else NatText(v as int)
  }

  // ---------------------------------------------------------------- parsing

  predicate AllDigits(s: string, hex: bool)
  {
    forall i :: 0 <= i < |s| ==> if hex then IsHexDigit(s[i]) else IsDigit(s[i])
  }

  /** The value of a run of digits in base 10 or 16, most significant first. */
  function DigitsValue(s: string, hex: bool): nat
    requires AllDigits(s, hex)
  {
    if s == [] then 0
    else DigitsValue(s[..|s| - 1], hex) * (if hex then 16 else 10) + HexDigitValue(s[|s| - 1])
  }

  /** `Int32.Parse` of a non-empty run of decimal digits: too large a value raises `OverflowException`. */
  function ParseInt32(s: string): (r: Result<int32, Exception>)
    requires s != [] && AllDigits(s, false)
    ensures r.Success? <==> DigitsValue(s, false) <= Int32MaxValue
    ensures r.Success? ==> r.value as int == DigitsValue(s, false)
    ensures r.Failure? ==> r.error == OverflowException
  {
    var v := DigitsValue(s, false);
    if v <= Int32MaxValue then Success(v as int32) else Failure(OverflowException)
  }

  /**
   * `Int32.TryParse` with `NumberStyles.Integer` (hex false) or `NumberStyles.HexNumber` (hex true),
   * for strings made of digits only. An empty string or a non-digit fails. A decimal value above
   * `Int32.MaxValue` fails; a hexadecimal value of at most 32 bits is read as two's complement.
   */
  function TryParseInt32(s: string, hex: bool): (r: Option<int32>)
    ensures r.Some? ==> s != [] && AllDigits(s, hex)
    ensures r.Some? && !hex ==> r.value as int == DigitsValue(s, false)
    ensures r.Some? && hex && DigitsValue(s, true) <= Int32MaxValue ==> r.value as int == DigitsValue(s, true)
  {
    if s == [] || !AllDigits(s, hex) then None
    else
      var v := DigitsValue(s, hex);
      if v <= Int32MaxValue then Some(v as int32)
      else if hex && v < 0x1_0000_0000 then Some((v - 0x1_0000_0000) as int32)
      else None
  }

  // ---------------------------------------------------------------- Unicode

  predicate IsSurrogate(cp: int)
  {
    0xD800 <= cp <= 0xDFFF
  }

  /**
   * `Char.ConvertFromUtf32`: a code point outside U+0000..U+10FFFF, or a surrogate code point,
   * raises `ArgumentOutOfRangeException`. Otherwise the result is the one-character string
   * holding that scalar value (its UTF-16 form is `Utf16Encode`).
   */
  function ConvertFromUtf32(cp: int): (r: Result<string, Exception>)
    ensures r.Success? <==> 0 <= cp <= 0x10FFFF && !IsSurrogate(cp)
    ensures r.Success? ==> |r.value| == 1 && r.value[0] as int == cp
    ensures r.Failure? ==> r.error == ArgumentOutOfRangeException("utf32")
  {
    if 0 <= cp <= 0x10FFFF && !IsSurrogate(cp) then Success([cp as char])
    else Failure(ArgumentOutOfRangeException("utf32"))
  }

  /** The UTF-16 code units of a scalar value (Unicode Standard section 3.9, definition D91). */
  function Utf16Encode(c: char): (units: seq<int>)
    ensures |units| == (if c as int < 0x1_0000 then 1 else 2)
    ensures |units| == 2 ==> 0xD800 <= units[0] <= 0xDBFF && 0xDC00 <= units[1] <= 0xDFFF
    ensures |units| == 1 ==> units[0] == c as int && !IsSurrogate(units[0])
  {
    var cp := c as int;
    if cp < 0x1_0000 then [cp]
    else [0xD800 + (cp - 0x1_0000) / 0x400, 0xDC00 + (cp - 0x1_0000) % 0x400]
  }

  /** Decoding one UTF-16 code unit or one surrogate pair back to a code point. */
  function Utf16Decode(units: seq<int>): Option<int>
  {
    if |units| == 1 && 0 <= units[0] < 0x1_0000 && !IsSurrogate(units[0]) then Some(units[0])
    else if |units| == 2 && 0xD800 <= units[0] <= 0xDBFF && 0xDC00 <= units[1] <= 0xDFFF then
      Some((units[0] - 0xD800) * 0x400 + (units[1] - 0xDC00) + 0x1_0000)
    else None
  }

  /** Every scalar value survives the UTF-16 encoding: decoding its code units gives it back. */
  lemma Utf16RoundTrip(c: char)
    ensures Utf16Decode(Utf16Encode(c)) == Some(c as int)
  {
  }

  /** Formatting a natural number and parsing it back gives the number. */
  lemma {:induction false} DigitsValueOfNatText(n: nat)
    ensures AllDigits(NatText(n), false)
    ensures DigitsValue(NatText(n), false) == n
  {
    var s := NatText(n);
    if n >= 10 {
      DigitsValueOfNatText(n / 10);
      assert s[..|s| - 1] == NatText(n / 10);
    }
  }

  /** `Int32.Parse` inverts `Int32.ToString` on non-negative values. */
  lemma ParseInt32OfText(v: int32)
    requires v >= 0
    ensures AllDigits(Int32Text(v), false)
    ensures ParseInt32(Int32Text(v)) == Success(v)
  {
    DigitsValueOfNatText(v as int);
  }
}
