/**
 * Numbers as the builder computes and prints them. Ruby keeps amounts as
 * Floats; here an amount is an exact number of cents, and the inputs a line is
 * computed from (quantity, unit price, tax rate) are exact reals.
 */
module Numbers {
  import opened Wrappers

  /**
   * `Float#round(2)` on an exact value, as a count of cents: the nearest cent,
   * halves rounded away from zero (Ruby's default rounding mode).
   */
  function RoundCents(x: real): (c: int)
    ensures x >= 0.0 ==> c as real - 0.5 <= x * 100.0 < c as real + 0.5
    ensures x < 0.0 ==> c as real - 0.5 < x * 100.0 <= c as real + 0.5
  {
    if x >= 0.0 then (x * 100.0 + 0.5).Floor else -((0.5 - x * 100.0).Floor)
  }

  /** The two bounds of RoundCents determine its result: no other cent count satisfies them. */
  lemma RoundCentsUnique(x: real, c: int)
    requires x >= 0.0 ==> c as real - 0.5 <= x * 100.0 < c as real + 0.5
    requires x < 0.0 ==> c as real - 0.5 < x * 100.0 <= c as real + 0.5
    ensures c == RoundCents(x)
  {
  }

  /** A value that is already a whole number of cents is left as it is. */
  lemma RoundCentsExact(k: int)
    ensures RoundCents(k as real / 100.0) == k
  {
    assert k as real / 100.0 * 100.0 == k as real;
    RoundCentsUnique(k as real / 100.0, k);
  }

  predicate IsDigit(ch: char) {
    '0' <= ch <= '9'
  }

  predicate IsDigits(s: string) {
    forall i :: 0 <= i < |s| ==> IsDigit(s[i])
  }

  function DigitChar(d: nat): (ch: char)
    requires d < 10
    ensures IsDigit(ch)
  {
    "0123456789"[d]
  }

  function DigitValue(ch: char): (d: nat)
    requires IsDigit(ch)
    ensures d < 10
  {
    ch as int - '0' as int
  }

  lemma DigitRoundTrip(d: nat)
    requires d < 10
    ensures DigitValue(DigitChar(d)) == d
  {
  }

  /** `Integer#to_s`: the decimal digits of n, without leading zeros ("0" for zero). */
  function NatToString(n: nat): (s: string)
    ensures |s| >= 1 && IsDigits(s)
    ensures s[0] == '0' ==> n == 0
  {
    if n < 10 then [DigitChar(n)] else NatToString(n / 10) + [DigitChar(n % 10)]
  }

  /** The value of a string of decimal digits (the empty string reads as 0). */
  function ParseNat(s: string): nat
    requires IsDigits(s)
  {
    if s == [] then 0 else ParseNat(s[..|s| - 1]) * 10 + DigitValue(s[|s| - 1])
  }

  /** Reading back the decimal string of n gives n. */
  lemma {:induction false} ParseNatToString(n: nat)
    ensures ParseNat(NatToString(n)) == n
  {
    var s := NatToString(n);
    if n < 10 {
      DigitRoundTrip(n);
    } else {
      ParseNatToString(n / 10);
      assert s[..|s| - 1] == NatToString(n / 10);
      DigitRoundTrip(n % 10);
    }
  }

  /** Distinct numbers have distinct decimal strings. */
  lemma NatToStringInjective(m: nat, n: nat)
    requires NatToString(m) == NatToString(n)
    ensures m == n
  {
    ParseNatToString(m);
    ParseNatToString(n);
  }

  function Abs(c: int): nat {
    if c < 0 then -c else c
  }

  /** The sign, whole units and decimal point with which both number texts below begin. */
  function WholePart(c: int): string {
    (if c < 0 then "-" else "") + NatToString(Abs(c) / 100) + "."
  }

  /** `sprintf("%.2f", x)` of an amount of c cents: an optional sign, the whole units, a point and two digits. */
  function FormatCents(c: int): string {
    var r := Abs(c) % 100;
    WholePart(c) + [DigitChar(r / 10), DigitChar(r % 10)]
  }

  /** Reads an amount written as "[-]digits.dd" back into cents. */
  function ParseCents(s: string): Option<int> {
    if |s| > 0 && s[0] == '-' then
      match ParseUnsigned(s[1..])
      case Some(m) => Some(-(m as int))
      case None => None
    else
      ParseUnsigned(s)
  }

  /** Reads "digits.dd" (at least one digit before the point) into cents. */
  function ParseUnsigned(u: string): Option<nat> {
    if |u| >= 4 && u[|u| - 3] == '.' then ParseParts(u[..|u| - 3], u[|u| - 2..]) else None
  }

  /** The whole part and the two decimals, each read as digits. */
  function ParseParts(w: string, f: string): Option<nat> {
    if IsDigits(w) && IsDigits(f) then Some(ParseNat(w) * 100 + ParseNat(f)) else None
  }

  lemma ParseTwoDigits(d: nat)
    requires d < 100
    ensures ParseNat([DigitChar(d / 10), DigitChar(d % 10)]) == d
  {
    var f := [DigitChar(d / 10), DigitChar(d % 10)];
    assert f[..1] == [f[0]] && f[..1][..0] == [];
    DigitRoundTrip(d / 10);
    DigitRoundTrip(d % 10);
    assert ParseNat(f[..1]) == DigitValue(f[0]);
    assert ParseNat(f) == ParseNat(f[..1]) * 10 + DigitValue(f[1]);
  }

  lemma ParseUnsignedSplit(w: string, f: string)
    requires |w| >= 1 && |f| == 2
    ensures ParseUnsigned(w + "." + f) == ParseParts(w, f)
  {
    var u := w + "." + f;
    assert u[|u| - 3] == '.';
    assert u[..|u| - 3] == w;
    assert u[|u| - 2..] == f;
  }

  lemma ParseUnsignedRoundTrip(q: nat, r: nat)
    requires r < 100
    ensures ParseUnsigned(NatToString(q) + "." + [DigitChar(r / 10), DigitChar(r % 10)]) == Some(q * 100 + r)
  {
    ParseUnsignedSplit(NatToString(q), [DigitChar(r / 10), DigitChar(r % 10)]);
    ParseNatToString(q);
    ParseTwoDigits(r);
  }

  lemma FormatCentsShape(c: int)
    ensures var r := Abs(c) % 100;
      FormatCents(c) == (if c < 0 then "-" else "") + (NatToString(Abs(c) / 100) + "." + [DigitChar(r / 10), DigitChar(r % 10)])
  {
  }

  /** The two-decimal text of an amount reads back as the same amount. */
  lemma FormatCentsRoundTrip(c: int)
    ensures ParseCents(FormatCents(c)) == Some(c)
  {
    var q, r := Abs(c) / 100, Abs(c) % 100;
    var u := NatToString(q) + "." + [DigitChar(r / 10), DigitChar(r % 10)];
    FormatCentsShape(c);
    ParseUnsignedRoundTrip(q, r);
    assert u[0] == NatToString(q)[0];
    if c < 0 {
      assert FormatCents(c) == "-" + u;
      assert FormatCents(c)[1..] == u;
    } else {
      assert FormatCents(c) == u;
    }
  }

  /** Distinct amounts print as distinct two-decimal texts. */
  lemma FormatCentsInjective(c: int, d: int)
    requires FormatCents(c) == FormatCents(d)
    ensures c == d
  {
    FormatCentsRoundTrip(c);
    FormatCentsRoundTrip(d);
  }

  /**
   * `Float#to_s` of an amount of c cents, for amounts a double holds to the cent
   * (at most 15 significant digits): the shortest decimal that denotes it,
   * with at least one digit after the point ("210.0", "12.5", "0.21").
   */
  function FloatText(c: int): string {
    var a := Abs(c);
    var f := a % 100;
    var frac := if f == 0 then "0" else if f % 10 == 0 then [DigitChar(f / 10)] else [DigitChar(f / 10), DigitChar(f % 10)];
    WholePart(c) + frac
  }

  /** The unformatted text agrees with the `%.2f` text exactly when the amount has a non-zero last cent digit. */
  lemma FloatTextVersusFormat(c: int)
    ensures FloatText(c) == FormatCents(c) <==> Abs(c) % 10 != 0
  {
    var a := Abs(c);
    if a % 10 == 0 {
      assert |FloatText(c)| == |WholePart(c)| + 1;
      assert |FormatCents(c)| == |WholePart(c)| + 2;
    } else {
      assert a % 100 != 0 && a % 100 % 10 == a % 10;
    }
  }
}
