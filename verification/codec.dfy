/**
 * The decimal codec: a `0x` hexadecimal unsigned integer, as the multicall
 * library reports each uint return value, is read as a natural number and
 * printed back in base ten, the way `new BigNumber(hex).toString()` is used by
 * every handler. A return value BigNumber cannot read as a number, such as a
 * malformed literal or one whose letters mix upper and lower case like
 * `0xaB`, becomes NaN, whose string form is "NaN"; nothing is thrown. This
 * model reads only `0x` literals as numbers; BigNumber also reads other forms.
 */
module Codec {
  import opened Wrappers
  import opened Numerals

  predicate IsDecimalDigit(c: char) {
    '0' <= c <= '9'
  }

  predicate IsHexDigit(c: char) {
    '0' <= c <= '9' || 'a' <= c <= 'f' || 'A' <= c <= 'F'
  }

  /** The value of one hexadecimal digit, written in either case. */
  function HexDigitValue(c: char): (d: nat)
    requires IsHexDigit(c)
    ensures d < 16
  {
    if '0' <= c <= '9' then c as int - '0' as int
    else if 'a' <= c <= 'f' then c as int - 'a' as int + 10
    else c as int - 'A' as int + 10
  }

  /** The lower-case character for a digit below sixteen. */
  function DigitChar(d: nat): (c: char)
    requires d < 16
    ensures IsHexDigit(c) && HexDigitValue(c) == d
    ensures d < 10 ==> IsDecimalDigit(c)
    ensures !IsUpperHexLetter(c)
  {
    if d < 10 then ('0' as int + d) as char else ('a' as int + d - 10) as char
  }

  function DigitChars(ds: seq<nat>): (s: string)
    requires InBase(ds, 16)
    ensures |s| == |ds|
    ensures forall i :: 0 <= i < |ds| ==> IsHexDigit(s[i]) && HexDigitValue(s[i]) == ds[i]
    ensures forall i :: 0 <= i < |ds| ==> !IsUpperHexLetter(s[i])
  {
    seq(|ds|, i requires 0 <= i < |ds| => DigitChar(ds[i]))
  }

  function DigitValues(s: string): (ds: seq<nat>)
    requires forall i :: 0 <= i < |s| ==> IsHexDigit(s[i])
    ensures |ds| == |s| && InBase(ds, 16)
  {
    seq(|s|, i requires 0 <= i < |s| => HexDigitValue(s[i]))
  }

  predicate IsLowerHexLetter(c: char) {
    'a' <= c <= 'f'
  }

  predicate IsUpperHexLetter(c: char) {
    'A' <= c <= 'F'
  }

  /**
   * The letters of a digit string are all lower case or all upper case.
   * BigNumber's base-16 reading tries the string as it is, then wholly
   * upper-cased or wholly lower-cased, so a mixed-case string such as "aB"
   * is not a number.
   */
  predicate OneCase(s: string) {
    || (forall i :: 0 <= i < |s| ==> !IsUpperHexLetter(s[i]))
    || (forall i :: 0 <= i < |s| ==> !IsLowerHexLetter(s[i]))
  }

  /**
   * A hexadecimal literal: `0x` or `0X` followed by at least one hexadecimal
   * digit, with letters of one case.
   */
  predicate IsHexLiteral(s: string) {
    && 3 <= |s| && s[0] == '0' && (s[1] == 'x' || s[1] == 'X')
    && (forall i :: 2 <= i < |s| ==> IsHexDigit(s[i]))
    && OneCase(s[2..])
  }

  /** The unsigned integer a hexadecimal literal denotes; None (NaN) for anything else. */
  function ParseHex(s: string): Option<nat> {
    if IsHexLiteral(s) then Some(Value(DigitValues(s[2..]), 16)) else None
  }

  /** The lower-case `0x` form of a number: the reference encoder the decoder inverts. */
  function ToHex(n: nat): string {
    "0x" + DigitChars(Digits(n, 16))
  }

  /** Decoding a hexadecimal literal recovers the number it encodes. */
  lemma HexRoundTrip(n: nat)
    ensures ParseHex(ToHex(n)) == Some(n)
  {
    var s := ToHex(n);
    var ds := Digits(n, 16);
    assert s[2..] == DigitChars(ds);
    assert IsHexLiteral(s);
    assert DigitValues(s[2..]) == ds;
    ValueOfDigits(n, 16);
  }

  /** A digit-only decimal string, with no leading zero unless it is "0". */
  predicate IsCanonicalDecimal(s: string) {
    && 1 <= |s|
    && (forall i :: 0 <= i < |s| ==> IsDecimalDigit(s[i]))
    && (s[0] == '0' ==> |s| == 1)
  }

  /** The natural number a string of decimal digits denotes; None for anything else. */
  function ParseDecimal(s: string): Option<nat> {
    if 1 <= |s| && forall i :: 0 <= i < |s| ==> IsDecimalDigit(s[i])
    then Some(Value(DigitValues(s), 10))
    else None
  }

  /** The base-ten digits of `n`: a canonical decimal that denotes `n`. */
  function ToDecimal(n: nat): (s: string)
    ensures IsCanonicalDecimal(s)
    ensures ParseDecimal(s) == Some(n)
  {
    var ds := Digits(n, 10);
    var s := DigitChars(ds);
    assert DigitValues(s) == ds;
    ValueOfDigits(n, 10);
    s
  }

  /** Printing the number a canonical decimal denotes gives back that decimal. */
  lemma DecimalRoundTrip(s: string)
    requires IsCanonicalDecimal(s)
    ensures ParseDecimal(s).Some? && ToDecimal(ParseDecimal(s).value) == s
  {
    var ds := DigitValues(s);
    assert InBase(ds, 10);
    assert Canonical(ds);
    DigitsOfValue(ds, 10);
    var t := ToDecimal(Value(ds, 10));
    assert t == DigitChars(ds);
    forall i | 0 <= i < |s| ensures t[i] == s[i] {
      DecimalDigitChar(s[i]);
    }
  }

  /** A decimal digit is the character printed for its own value. */
  lemma DecimalDigitChar(c: char)
    requires IsDecimalDigit(c)
    ensures DigitChar(HexDigitValue(c)) == c
  {
  }

  /**
   * `new BigNumber(hex).toString()`: the decimal form of the hexadecimal
   * literal, or "NaN" when `hex` is not one.
   */
  function DecodeHex(hex: string): (s: string)
    ensures ParseDecimal(s) == ParseHex(hex)
    ensures ParseHex(hex).Some? ==> IsCanonicalDecimal(s)
    ensures ParseHex(hex).None? <==> s == "NaN"
  {
    match ParseHex(hex)
    case None => "NaN"
    case Some(n) => ToDecimal(n)
  }

  /**
   * A literal whose digits mix a lower-case and an upper-case letter is not
   * a number: it decodes to "NaN", however the rest of it reads.
   */
  lemma MixedCaseIsNaN(hex: string, i: nat, j: nat)
    requires 2 <= i < |hex| && 2 <= j < |hex|
    requires IsLowerHexLetter(hex[i]) && IsUpperHexLetter(hex[j])
    ensures ParseHex(hex) == None
    ensures DecodeHex(hex) == "NaN"
  {
    var digits := hex[2..];
    assert digits[i - 2] == hex[i] && digits[j - 2] == hex[j];
    assert !OneCase(digits);
  }
}
