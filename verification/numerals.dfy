/**
 * Positional numerals in an arbitrary base, most significant digit first.
 * The hexadecimal reader and the decimal printer of the codec are both
 * instances of these two functions.
 */
module Numerals {

  /** A digit string without leading zeros: "0" itself, or one that starts with a non-zero digit. */
  predicate Canonical(ds: seq<nat>) {
    1 <= |ds| && (ds[0] == 0 ==> |ds| == 1)
  }

  /** Every digit is below the base. */
  predicate InBase(ds: seq<nat>, base: nat) {
    forall i :: 0 <= i < |ds| ==> ds[i] < base
  }

  /** The digits of `n` in `base`, most significant first. */
  function Digits(n: nat, base: nat): (ds: seq<nat>)
    requires 2 <= base
    ensures InBase(ds, base)
    ensures 1 <= |ds| && (ds[0] == 0 <==> n == 0)
    ensures Canonical(ds)
    decreases n
  {
    if n < base then [n]
    else
      QuotientSmaller(n, base);
      Digits(n / base, base) + [n % base]
  }

  /** The number a digit string denotes in `base` (Horner's rule from the left). */
  function Value(ds: seq<nat>, base: nat): nat
    decreases |ds|
  {
    if ds == [] then 0 else Value(ds[..|ds| - 1], base) * base + ds[|ds| - 1]
  }

  /** Quotient and remainder of `q * b + r` when `r` is a digit. */
  lemma DivModDigit(q: nat, r: nat, b: nat)
    requires r < b
    ensures (q * b + r) / b == q && (q * b + r) % b == r
  {
    var n := q * b + r;
    var d := n / b - q;
    assert d * b == r - n % b;
    if d >= 1 {
    } else if d <= -1 {
    }
  }

  /** Dropping the last digit makes a number smaller. */
  lemma QuotientSmaller(n: nat, base: nat)
    requires 2 <= base <= n
    ensures 1 <= n / base < n
  {
  }

  /** Appending a digit shifts the value by one place. */
  lemma ValueSnoc(pre: seq<nat>, d: nat, base: nat)
    ensures Value(pre + [d], base) == Value(pre, base) * base + d
  {
    assert (pre + [d])[..|pre|] == pre;
  }

  /** A string that starts with a non-zero digit denotes a positive number. */
  lemma {:induction false} ValuePositive(ds: seq<nat>, base: nat)
    requires 2 <= base
    requires 1 <= |ds| && ds[0] != 0
    ensures Value(ds, base) >= 1
  {
    if |ds| > 1 {
      var pre := ds[..|ds| - 1];
      assert pre[0] == ds[0];
      ValuePositive(pre, base);
    }
  }

  /** Reading back the digits of `n` gives `n`. */
  lemma {:induction false} ValueOfDigits(n: nat, base: nat)
    requires 2 <= base
    ensures Value(Digits(n, base), base) == n
  {
    if n >= base {
      var q, r := n / base, n % base;
      QuotientSmaller(n, base);
      assert n == q * base + r;
      assert Digits(n, base) == Digits(q, base) + [r];
      ValueOfDigits(q, base);
      ValueSnoc(Digits(q, base), r, base);
    }
  }

  /** The digits of a number with a digit appended are its digits plus that digit. */
  lemma DigitsSnoc(q: nat, d: nat, base: nat)
    requires 2 <= base && 1 <= q && d < base
    ensures Digits(q * base + d, base) == Digits(q, base) + [d]
  {
    var n := q * base + d;
    DivModDigit(q, d, base);
    assert q * base >= base;
    assert n / base == q && n % base == d;
  }

  /** A canonical digit string is exactly the digits of the number it denotes. */
  lemma {:induction false} DigitsOfValue(ds: seq<nat>, base: nat)
    requires 2 <= base
    requires Canonical(ds) && InBase(ds, base)
    ensures Digits(Value(ds, base), base) == ds
  {
    var n := Value(ds, base);
    var last := ds[|ds| - 1];
    var pre := ds[..|ds| - 1];
    if |ds| == 1 {
      assert pre == [];
    } else {
      assert pre[0] == ds[0];
      ValuePositive(pre, base);
      DigitsOfValue(pre, base);
      assert ds == pre + [last];
      ValueSnoc(pre, last, base);
      DigitsSnoc(Value(pre, base), last, base);
    }
  }
}
