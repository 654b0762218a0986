/**
 * Strings of decimal digits, their values, and fixed-width zero-padded
 * decimal rendering. Digits are read most significant first, the way the
 * index keys and the schema text write them.
 */
module Decimal {

  /** 10 to the power n. */
  function Pow10(n: nat): (r: nat)
    ensures r >= 1
  {
    if n == 0 then 1 else 10 * Pow10(n - 1)
  }

  predicate IsDigit(c: char) {
    '0' <= c <= '9'
  }

  predicate AllDigits(s: string) {
    forall i :: 0 <= i < |s| ==> IsDigit(s[i])
  }

  /** The character of decimal digit d. */
  function DigitChar(d: nat): (c: char)
    requires d < 10
    ensures IsDigit(c) && c as int == '0' as int + d
  {
    ('0' as int + d) as char
  }

  /** The value of a digit character. */
  function DigitOf(c: char): (d: nat)
    requires IsDigit(c)
    ensures d < 10 && DigitChar(d) == c
  {
    c as int - '0' as int
  }

  /** A leading digit d followed by a tail worth less than p stays below 10 * p. */
  lemma LeadingDigitBound(d: nat, r: nat, p: nat)
    requires d < 10 && r < p
    ensures d * p + r < 10 * p
  {
    assert d * p <= 9 * p;
  }

  /** Splitting v < 10 * p into its leading digit v / p and the remainder. */
  lemma LeadingDigitSplit(v: nat, p: nat)
    requires p >= 1 && v < 10 * p
    ensures v / p < 10 && v % p < p && v == (v / p) * p + v % p
  {
  }

  /** Division by p recovers a leading digit d and a tail r < p. */
  lemma QuotRem(d: nat, r: nat, p: nat)
    requires r < p
    ensures (d * p + r) / p == d && (d * p + r) % p == r
  {
    var n := d * p + r;
    var q, m := n / p, n % p;
    assert n == q * p + m && m < p;
    if q > d {
      MulLe(d + 1, q, p);
      assert false;
    } else if q < d {
      MulLe(q + 1, d, p);
      assert false;
    }
  }

  lemma MulLe(a: nat, b: nat, p: nat)
    requires a <= b
    ensures a * p <= b * p
  {
  }

  /** Leading digits decide the order of two numbers below 10 * p. */
  lemma QuotientOrder(a: nat, b: nat, p: nat)
    requires p >= 1 && a / p < b / p
    ensures a < b
  {
    assert a < (a / p + 1) * p;
    assert (a / p + 1) * p <= (b / p) * p;
  }

  /** The number a digit string denotes, most significant digit first. */
  function DigitsValue(s: string): (v: nat)
    requires AllDigits(s)
    ensures v < Pow10(|s|)
  {
    if s == [] then 0
    else
      var rest := DigitsValue(s[1..]);
      LeadingDigitBound(DigitOf(s[0]), rest, Pow10(|s| - 1));
      DigitOf(s[0]) * Pow10(|s| - 1) + rest
  }

  /** v written in exactly w decimal digits, padded on the left with '0'. */
  function PadDigits(v: nat, w: nat): (s: string)
    requires v < Pow10(w)
    ensures |s| == w && AllDigits(s)
  {
    if w == 0 then []
    else
      var p := Pow10(w - 1);
      LeadingDigitSplit(v, p);
      [DigitChar(v / p)] + PadDigits(v % p, w - 1)
  }

  /** Reading back a padded rendering gives the number rendered. */
  lemma {:induction false} PadDigitsValue(v: nat, w: nat)
    requires v < Pow10(w)
    ensures DigitsValue(PadDigits(v, w)) == v
  {
    if w > 0 {
      var p := Pow10(w - 1);
      LeadingDigitSplit(v, p);
      var q, r := v / p, v % p;
      PadDigitsValue(r, w - 1);
      var s := PadDigits(v, w);
      assert s[1..] == PadDigits(r, w - 1);
      assert DigitOf(s[0]) == q;
      assert DigitsValue(s) == q * p + r;
    }
  }

  /** Rendering the value of a digit string at its own width gives the string back. */
  lemma {:induction false} ValuePadDigits(s: string)
    requires AllDigits(s)
    ensures PadDigits(DigitsValue(s), |s|) == s
  {
    if s != [] {
      var p := Pow10(|s| - 1);
      var d, r := DigitOf(s[0]), DigitsValue(s[1..]);
      QuotRem(d, r, p);
      ValuePadDigits(s[1..]);
    }
  }

  /** Lexicographic order of strings, as std::string's operator< orders them. */
  predicate LexLess(s: string, t: string) {
    if s == [] then t != []
    else t != [] && (s[0] < t[0] || (s[0] == t[0] && LexLess(s[1..], t[1..])))
  }

  /** At a fixed width, padded renderings are ordered exactly as the numbers are. */
  lemma {:induction false} PadDigitsOrder(a: nat, b: nat, w: nat)
    requires a < Pow10(w) && b < Pow10(w)
    ensures a < b <==> LexLess(PadDigits(a, w), PadDigits(b, w))
  {
    if w > 0 {
      var p := Pow10(w - 1);
      LeadingDigitSplit(a, p);
      LeadingDigitSplit(b, p);
      var sa, sb := PadDigits(a, w), PadDigits(b, w);
      assert sa[0] == DigitChar(a / p) && sa[1..] == PadDigits(a % p, w - 1);
      assert sb[0] == DigitChar(b / p) && sb[1..] == PadDigits(b % p, w - 1);
      if a / p == b / p {
        PadDigitsOrder(a % p, b % p, w - 1);
      } else if a / p < b / p {
        QuotientOrder(a, b, p);
      } else {
        QuotientOrder(b, a, p);
      }
    }
  }

  /** The number of digits std::to_string writes for n: no leading zeros. */
  function NumDigits(n: nat): (k: nat)
    ensures 1 <= k && n < Pow10(k)
    ensures k == 1 || Pow10(k - 1) <= n
  {
    if n < 10 then 1 else 1 + NumDigits(n / 10)
  }

  /** n in decimal with no leading zeros ("0" for zero). */
  function NatToDecimal(n: nat): (s: string)
    ensures |s| >= 1 && AllDigits(s) && DigitsValue(s) == n
    ensures s[0] == '0' ==> s == "0"
  {
    var k := NumDigits(n);
    PadDigitsValue(n, k);
    LeadingDigitSplit(n, Pow10(k - 1));
    PadDigits(n, k)
  }

  /** The longest prefix of s made of digits. */
  function DigitRun(s: string): (r: string)
    ensures r <= s && AllDigits(r)
    ensures |r| < |s| ==> !IsDigit(s[|r|])
  {
    if s != [] && IsDigit(s[0]) then [s[0]] + DigitRun(s[1..]) else []
  }

  /** A string of digits is its own digit run. */
  lemma {:induction false} DigitRunOfDigits(s: string)
    requires AllDigits(s)
    ensures DigitRun(s) == s
  {
    if s != [] {
      DigitRunOfDigits(s[1..]);
    }
  }
}
