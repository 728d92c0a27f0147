/**
 * Decimal rendering of natural numbers, as JavaScript's `Number.prototype.toString()`
 * produces it for non-negative integers below 10^21 (from there on it switches to
 * exponent notation), and `String.prototype.padStart` with a one-character fill.  `ParseNat` is the partner used to state round trips.
 */
module Text {

  predicate IsDigit(c: char) {
    '0' <= c <= '9'
  }

  predicate AllDigits(s: string) {
    forall i :: 0 <= i < |s| ==> IsDigit(s[i])
  }

  function DigitValue(c: char): (d: nat)
    requires IsDigit(c)
    ensures d < 10
  {
    c as int - '0' as int
  }

  function DigitChar(d: nat): (c: char)
    requires d < 10
    ensures IsDigit(c) && DigitValue(c) == d
  {
    ('0' as int + d) as char
  }

  /** The value of a string of decimal digits, most significant first. */
  function ParseNat(s: string): nat
    requires AllDigits(s)
  {
    if s == [] then 0 else ParseNat(s[..|s| - 1]) * 10 + DigitValue(s[|s| - 1])
  }

  /** `n.toString()` for a natural number `n`. */
  function NatToString(n: nat): (s: string)
    ensures |s| >= 1 && AllDigits(s)
    ensures ParseNat(s) == n
    ensures s[0] == '0' ==> n == 0
    ensures |s| == 1 <==> n < 10
    decreases n
  {
    if n < 10 then [DigitChar(n)]
    else
      var prefix := NatToString(n / 10);
      var s := prefix + [DigitChar(n % 10)];
      assert s[..|s| - 1] == prefix;
      s
  }

  /** A digit string in the form `toString` writes: non-empty, and no leading zero
      unless it is the single digit `0`. */
  predicate Canonical(s: string) {
    |s| >= 1 && AllDigits(s) && (s[0] == '0' ==> |s| == 1)
  }

  /** A digit string that does not start with `'0'` has a positive value. */
  lemma {:induction false} LeadingNonZeroPositive(t: string)
    requires |t| >= 1 && AllDigits(t) && t[0] != '0'
    ensures ParseNat(t) >= 1
  {
    if |t| > 1 {
      var init := t[..|t| - 1];
      LeadingNonZeroPositive(init);
    }
  }

  /** `toString` is the only canonical way to write a number: a canonical digit string
      is the rendering of its own value. */
  lemma {:induction false} CanonicalIsNatToString(s: string)
    requires Canonical(s)
    ensures s == NatToString(ParseNat(s))
  {
    var v := ParseNat(s);
    if |s| == 1 {
      assert s[..|s| - 1] == [];
      assert v == ParseNat(s[..|s| - 1]) * 10 + DigitValue(s[0]);
      assert s == [DigitChar(v)];
    } else {
      var init := s[..|s| - 1];
      LeadingNonZeroPositive(init);
      CanonicalIsNatToString(init);
      assert v / 10 == ParseNat(init) && v % 10 == DigitValue(s[|s| - 1]);
      assert s == init + [DigitChar(v % 10)];
    }
  }

  /** Two digit strings of length two with the same value are equal. */
  lemma TwoDigitsUnique(a: string, b: string)
    requires |a| == 2 && |b| == 2 && AllDigits(a) && AllDigits(b) && ParseNat(a) == ParseNat(b)
    ensures a == b
  {
    assert a[..1][..0] == [] && b[..1][..0] == [];
    assert ParseNat(a[..1]) == DigitValue(a[0]) && ParseNat(b[..1]) == DigitValue(b[0]);
    assert DigitValue(a[0]) == DigitValue(b[0]) && DigitValue(a[1]) == DigitValue(b[1]);
    assert a[0] == b[0] && a[1] == b[1];
  }

  /** A leading `'0'` does not change the value of a digit string. */
  lemma {:induction false} ParseLeadingZero(t: string)
    requires AllDigits(t)
    ensures AllDigits("0" + t) && ParseNat("0" + t) == ParseNat(t)
  {
    var s := "0" + t;
    assert AllDigits(s);
    if t != [] {
      assert s[..|s| - 1] == "0" + t[..|t| - 1];
      ParseLeadingZero(t[..|t| - 1]);
    }
  }

  /** `n` copies of `c`. */
  function Repeat(c: char, n: nat): (r: string)
    ensures |r| == n && forall i :: 0 <= i < n ==> r[i] == c
  {
    seq(n, _ => c)
  }

  /** `s.padStart(width, [fill])`: prepends `fill` until `s` is `width` long. */
  function PadStart(s: string, width: nat, fill: char): (r: string)
    ensures |r| == if |s| >= width then |s| else width
    ensures r[|r| - |s|..] == s
    ensures forall i :: 0 <= i < |r| - |s| ==> r[i] == fill
  {
    if |s| >= width then s
    else
      var pad := Repeat(fill, width - |s|);
      assert (pad + s)[|pad|..] == s;
      pad + s
  }

  /** Padding one or two digits to width two keeps their value. */
  lemma PadToTwoDigits(t: string)
    requires AllDigits(t) && 1 <= |t| <= 2
    ensures var r := PadStart(t, 2, '0'); |r| == 2 && AllDigits(r) && ParseNat(r) == ParseNat(t)
  {
    if |t| == 1 {
      assert PadStart(t, 2, '0') == "0" + t by {
        assert Repeat('0', 1) == "0";
      }
      ParseLeadingZero(t);
    }
  }
}
