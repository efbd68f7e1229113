/**
  Decimal rendering of natural numbers, as a template literal `${n}` renders a
  non-negative integer, and the matching parser used to state what the
  rendering means.
*/
module Decimal {
  import opened Optional

  predicate IsDigit(c: char) {
    '0' <= c <= '9'
  }

  predicate AllDigits(s: string) {
    forall i :: 0 <= i < |s| ==> IsDigit(s[i])
  }

  function DigitValue(c: char): (d: nat)
    requires IsDigit(c)
    ensures d < 10
  {
    c as int - '0' as int
  }

  function DigitChar(d: nat): (c: char)
    requires d < 10
    ensures IsDigit(c) && DigitValue(c) == d
  {
    ('0' as int + d) as char
  }

  /** The shortest decimal spelling of `n`: at least one digit, no leading zero. */
  function NatToString(n: nat): (s: string)
    ensures |s| > 0 && AllDigits(s)
    ensures |s| > 1 ==> s[0] != '0'
  {
    if n < 10 then [DigitChar(n)] else NatToString(n / 10) + [DigitChar(n % 10)]
  }

  /** The number a string of digits denotes, most significant digit first. */
  function DigitsValue(s: string): nat
    requires AllDigits(s)
  {
    if s == [] then 0 else DigitsValue(s[..|s| - 1]) * 10 + DigitValue(s[|s| - 1])
  }

  /** Reading back the rendering of `n` gives `n`. */
  lemma {:induction false} DigitsRoundTrip(n: nat)
    ensures DigitsValue(NatToString(n)) == n
  {
    if n >= 10 {
      var s := NatToString(n);
      assert s[..|s| - 1] == NatToString(n / 10);
      DigitsRoundTrip(n / 10);
    }
  }

  /** The length of the longest all-digit prefix of `s`. */
  function LeadingDigits(s: string): (k: nat)
    ensures k <= |s| && AllDigits(s[..k])
    ensures k < |s| ==> !IsDigit(s[k])
  {
    if s == [] || !IsDigit(s[0]) then 0 else 1 + LeadingDigits(s[1..])
  }

  /** A run of digits followed by anything that does not start with a digit is read as exactly that run. */
  lemma {:induction false} LeadingDigitsOfAppend(d: string, t: string)
    requires AllDigits(d)
    requires t == [] || !IsDigit(t[0])
    ensures LeadingDigits(d + t) == |d|
  {
    if d != [] {
      assert (d + t)[1..] == d[1..] + t;
      LeadingDigitsOfAppend(d[1..], t);
    }
  }

  /** The decimal spellings `NatToString` produces: digits only, at least one, no leading zero. */
  predicate IsCanonical(d: string) {
    |d| > 0 && AllDigits(d) && (|d| > 1 ==> d[0] != '0')
  }

  /** Digits that do not start with a zero denote a positive number. */
  lemma {:induction false} NonzeroLeadIsPositive(d: string)
    requires |d| > 0 && AllDigits(d) && d[0] != '0'
    ensures DigitsValue(d) >= 1
  {
    if |d| > 1 {
      NonzeroLeadIsPositive(d[..|d| - 1]);
    }
  }

  /** A canonical spelling is the rendering of the number it denotes. */
  lemma {:induction false} CanonicalRoundTrip(d: string)
    requires IsCanonical(d)
    ensures NatToString(DigitsValue(d)) == d
  {
    var last := d[|d| - 1];
    if |d| == 1 {
      assert DigitChar(DigitValue(last)) == last;
    } else {
      var front := d[..|d| - 1];
      NonzeroLeadIsPositive(front);
      CanonicalRoundTrip(front);
      var n := DigitsValue(d);
      assert n / 10 == DigitsValue(front) && n % 10 == DigitValue(last);
      assert DigitChar(DigitValue(last)) == last;
      assert d == front + [last];
    }
  }

  /**
    Reads the leading run of digits of `t` as a number, with the rest of `t`;
    `None` if `t` does not start with a digit or the run has a leading zero.
  */
  function ParseNat(t: string): Option<(nat, string)> {
    var k := LeadingDigits(t);
    if k == 0 || (k > 1 && t[0] == '0') then None else Some((DigitsValue(t[..k]), t[k..]))
  }

  /** What the parser accepts is exactly a rendered number followed by the rest. */
  lemma ParseNatInverse(t: string, n: nat, rest: string)
    requires ParseNat(t) == Some((n, rest))
    ensures t == NatToString(n) + rest
  {
    var k := LeadingDigits(t);
    assert t == t[..k] + t[k..];
    CanonicalRoundTrip(t[..k]);
  }

  /** A rendered number followed by text that does not start with a digit parses back to the number and that text. */
  lemma ParseRenderedNat(n: nat, tail: string)
    requires tail == [] || !IsDigit(tail[0])
    ensures ParseNat(NatToString(n) + tail) == Some((n, tail))
  {
    var d := NatToString(n);
    LeadingDigitsOfAppend(d, tail);
    assert (d + tail)[..|d|] == d && (d + tail)[|d|..] == tail;
    DigitsRoundTrip(n);
  }
}
