/**
 * The decimal numbers the server keeps in `java.math.BigDecimal`: a value
 * is an unscaled integer and a scale, meaning unscaled × 10^(-scale).
 * `ParseDecimal` is the `BigDecimal(String)` constructor, `DecimalText` is
 * `BigDecimal.toString()`, and `IntText` is `Integer.toString`.
 */
module Decimals {
  import opened Wrappers
  import JavaStrings

  datatype Decimal = Decimal(unscaled: int, scale: int)

  /** `BigDecimal.ZERO`. */
  const ZERO := Decimal(0, 0)

  predicate IsDigit(c: char) { '0' <= c <= '9' }

  predicate AllDigits(s: string) { forall i :: 0 <= i < |s| ==> IsDigit(s[i]) }

  function DigitValue(c: char): nat
    requires IsDigit(c)
  {
    c as int - '0' as int
  }

  function DigitChar(n: nat): (c: char)
    requires n < 10
    ensures IsDigit(c) && DigitValue(c) == n
  {
    ('0' as int + n) as char
  }

  /** The number a string of decimal digits denotes. */
  function DigitsValue(s: string): nat
    requires AllDigits(s)
  {
    if |s| == 0 then 0 else DigitsValue(s[..|s| - 1]) * 10 + DigitValue(s[|s| - 1])
  }

  function Abs(n: int): nat { if n < 0 then -n else n }

  /** The decimal digits of `n`, without leading zeros. */
  function NatText(n: nat): (r: string)
    ensures |r| >= 1 && AllDigits(r)
    ensures DigitsValue(r) == n
    ensures r[0] == '0' ==> n == 0
  {
    if n < 10 then [DigitChar(n)]
    else
      var prefix := NatText(n / 10);
      var r := prefix + [DigitChar(n % 10)];
      assert r[..|r| - 1] == prefix;
      r
  }

  /** `Integer.toString(n)`: a minus sign before the digits of a negative number. */
  function IntText(n: int): string
  {
    if n < 0 then "-" + NatText(-n) else NatText(n)
  }

  function Zeros(n: nat): (r: string)
    ensures |r| == n && AllDigits(r)
    ensures forall i :: 0 <= i < n ==> r[i] == '0'
  {
    if n == 0 then "" else Zeros(n - 1) + "0"
  }

  /** Position of the exponent marker `e` or `E`, or `|s|` when there is none. */
  function ExponentMark(s: string): (i: nat)
    ensures i <= |s|
    ensures i < |s| ==> s[i] == 'e' || s[i] == 'E'
  {
    if |s| == 0 then 0
    else if s[0] == 'e' || s[0] == 'E' then 0
    else 1 + ExponentMark(s[1..])
  }

  /** The text after `e`/`E`: an optional sign and at least one digit. */
  function ParseExponent(t: string): Option<int>
  {
    var negative := |t| > 0 && t[0] == '-';
    var digits := if |t| > 0 && (t[0] == '-' || t[0] == '+') then t[1..] else t;
    if |digits| == 0 || !AllDigits(digits) then None
    else Some(if negative then -(DigitsValue(digits) as int) else DigitsValue(digits) as int)
  }

  /** Digits with at most one point: the magnitude they spell and the number of fraction digits. */
  function ParseSignificand(t: string): Option<(nat, nat)>
  {
    var dot := JavaStrings.IndexOf(t, '.');
    var intPart := t[..dot];
    var fraction := if dot < |t| then t[dot + 1..] else "";
    if !AllDigits(intPart) || !AllDigits(fraction) || |intPart| + |fraction| == 0 then None
    else Some((DigitsValue(intPart + fraction), |fraction|))
  }

  /** A significand, then optionally `e`/`E` and an exponent, read without a leading sign. */
  function ParseUnsigned(body: string): Option<Decimal>
  {
    var e := ExponentMark(body);
    var exponent := if e < |body| then ParseExponent(body[e + 1..]) else Some(0);
    var significand := ParseSignificand(body[..e]);
    if significand.None? || exponent.None? then None
    else Some(Decimal(significand.value.0, significand.value.1 - exponent.value))
  }

  /**
   * `new BigDecimal(s)`: an optional sign, digits with at most one decimal
   * point (at least one digit in all), then optionally `e`/`E` and a signed
   * exponent. The scale is the number of fraction digits minus the exponent.
   * `None` is the `NumberFormatException`.
   */
  function ParseDecimal(s: string): Option<Decimal>
  {
    var signed := |s| > 0 && (s[0] == '-' || s[0] == '+');
    var magnitude := ParseUnsigned(if signed then s[1..] else s);
    if magnitude.None? then None
    else if |s| > 0 && s[0] == '-' then Some(Decimal(-magnitude.value.unscaled, magnitude.value.scale))
    else magnitude
  }

  /** The exponent `BigDecimal.toString` writes after the first digit in scientific notation. */
  function AdjustedExponent(coeff: string, scale: int): int
  {
    -scale + (|coeff| - 1)
  }

  /** The exponent after `E`: a `+` before a positive one, the minus sign of a negative one. */
  function ExponentText(adjusted: int): string
  {
    if adjusted > 0 then "+" + NatText(adjusted) else IntText(adjusted)
  }

  /** Plain notation for a positive scale: the point goes `scale` digits from the right. */
  function PlainText(coeff: string, scale: nat): string
    requires scale > 0
  {
    if scale >= |coeff| then "0." + Zeros(scale - |coeff|) + coeff
    else coeff[..|coeff| - scale] + "." + coeff[|coeff| - scale..]
  }

  /** Scientific notation: the first digit, the others after a point, then the exponent. */
  function ScientificText(coeff: string, adjusted: int): string
    requires |coeff| >= 1
  {
    coeff[..1] + (if |coeff| > 1 then "." + coeff[1..] else "") + "E" + ExponentText(adjusted)
  }

  /** `BigDecimal.toString()` of a non-negative value with coefficient digits `coeff`. */
  function MagnitudeText(coeff: string, scale: int): string
    requires |coeff| >= 1
  {
    var adjusted := AdjustedExponent(coeff, scale);
    if scale == 0 then coeff
    else if scale > 0 && adjusted >= -6 then PlainText(coeff, scale)
    else ScientificText(coeff, adjusted)
  }

  /**
   * `BigDecimal.toString()`: plain notation when the scale is zero, or when
   * it is positive and the adjusted exponent is at least -6; otherwise one
   * digit, the remaining digits after a point, and `E` with a signed exponent.
   */
  function DecimalText(d: Decimal): string
  {
    (if d.unscaled < 0 then "-" else "") + MagnitudeText(NatText(Abs(d.unscaled)), d.scale)
  }

  // ---------------------------------------------------------------------
  // Digit-string facts used by the round trip

  lemma {:induction false} DigitsValueLeadingZero(s: string)
    requires AllDigits(s)
    ensures AllDigits("0" + s) && DigitsValue("0" + s) == DigitsValue(s)
    decreases |s|
  {
    var t := "0" + s;
    assert AllDigits(t) by { assert forall i :: 1 <= i < |t| ==> t[i] == s[i - 1]; }
    if |s| > 0 {
      var init := s[..|s| - 1];
      DigitsValueLeadingZero(init);
      assert t[..|t| - 1] == "0" + init;
    }
  }

  lemma {:induction false} DigitsValueZerosPrefix(n: nat, s: string)
    requires AllDigits(s)
    ensures AllDigits(Zeros(n) + s) && DigitsValue(Zeros(n) + s) == DigitsValue(s)
    decreases n
  {
    if n > 0 {
      DigitsValueZerosPrefix(n - 1, s);
      DigitsValueLeadingZero(Zeros(n - 1) + s);
      assert Zeros(n) + s == "0" + (Zeros(n - 1) + s) by {
        assert Zeros(n) == "0" + Zeros(n - 1) by {
          assert forall i :: 0 <= i < n ==> Zeros(n)[i] == '0';
        }
      }
    } else {
      assert Zeros(n) + s == s;
    }
  }

  lemma AllDigitsConcat(a: string, b: string)
    requires AllDigits(a) && AllDigits(b)
    ensures AllDigits(a + b)
  {
    assert forall i :: |a| <= i < |a + b| ==> (a + b)[i] == b[i - |a|];
  }

  lemma ParseExponentText(n: nat)
    ensures ParseExponent("+" + NatText(n)) == Some(n)
    ensures n > 0 ==> ParseExponent(IntText(-(n as int))) == Some(-(n as int))
  {
    var t := NatText(n);
    assert ("+" + t)[1..] == t;
    assert ("-" + t)[1..] == t;
  }

  lemma {:induction false} ExponentMarkSkip(a: string, b: string)
    requires forall i :: 0 <= i < |a| ==> a[i] != 'e' && a[i] != 'E'
    ensures ExponentMark(a + b) == |a| + ExponentMark(b)
    decreases |a|
  {
    if |a| > 0 {
      assert (a + b)[0] == a[0];
      assert (a + b)[1..] == a[1..] + b;
      ExponentMarkSkip(a[1..], b);
    } else {
      assert a + b == b;
    }
  }

  // ---------------------------------------------------------------------
  // The parser on the shapes `toString` produces

  lemma ParseSignificandWhole(digits: string)
    requires AllDigits(digits) && |digits| >= 1
    ensures ParseSignificand(digits).Some? && ParseSignificand(digits).value == (DigitsValue(digits), 0)
  {
    JavaStrings.IndexOfSkip(digits, "", '.');
    assert digits + "" == digits;
    assert digits[..|digits|] == digits;
  }

  lemma ParseSignificandPoint(intPart: string, fraction: string)
    requires AllDigits(intPart) && AllDigits(fraction) && |intPart| >= 1
    ensures AllDigits(intPart + fraction)
    ensures var r := ParseSignificand(intPart + "." + fraction);
            r.Some? && r.value == (DigitsValue(intPart + fraction), |fraction|)
  {
    AllDigitsConcat(intPart, fraction);
    var t := intPart + "." + fraction;
    assert t == intPart + ("." + fraction);
    JavaStrings.IndexOfSkip(intPart, "." + fraction, '.');
    AroundMark(intPart, '.', fraction);
  }

  /** A significand made of digits and a point contains no exponent marker. */
  lemma NoMarkInSignificand(t: string)
    requires forall i :: 0 <= i < |t| ==> IsDigit(t[i]) || t[i] == '.'
    ensures forall i :: 0 <= i < |t| ==> t[i] != 'e' && t[i] != 'E'
  {
  }

  /** Without an exponent the scale is the number of fraction digits. */
  lemma ParseUnsignedPlain(t: string)
    requires forall i :: 0 <= i < |t| ==> IsDigit(t[i]) || t[i] == '.'
    requires ParseSignificand(t).Some?
    ensures var r := ParseUnsigned(t);
            r.Some? && r.value == Decimal(ParseSignificand(t).value.0, ParseSignificand(t).value.1)
  {
    NoMarkInSignificand(t);
    ExponentMarkSkip(t, "");
    assert t + "" == t;
    assert t[..|t|] == t;
  }

  /** Cutting `a + [c] + b` at `c` gives `a` and `b` back. */
  lemma AroundMark(a: string, c: char, b: string)
    ensures (a + [c] + b)[..|a|] == a
    ensures (a + [c] + b)[|a| + 1..] == b
  {
  }

  /** `ParseUnsigned` once the exponent marker has been located at `e`. */
  lemma ParseUnsignedAtMark(body: string, e: nat)
    requires e < |body| && ExponentMark(body) == e
    ensures ParseUnsigned(body).Some? <==> ParseSignificand(body[..e]).Some? && ParseExponent(body[e + 1..]).Some?
    ensures ParseUnsigned(body).Some? ==>
              ParseUnsigned(body).value.unscaled == ParseSignificand(body[..e]).value.0 &&
              ParseUnsigned(body).value.scale == ParseSignificand(body[..e]).value.1 - ParseExponent(body[e + 1..]).value
  {
  }

  /** With an exponent the scale is the number of fraction digits minus the exponent. */
  lemma ParseUnsignedScientific(t: string, exp: string)
    requires forall i :: 0 <= i < |t| ==> IsDigit(t[i]) || t[i] == '.'
    requires ParseSignificand(t).Some? && ParseExponent(exp).Some?
    ensures var r := ParseUnsigned(t + "E" + exp);
            r.Some? && r.value == Decimal(ParseSignificand(t).value.0, ParseSignificand(t).value.1 - ParseExponent(exp).value)
  {
    NoMarkInSignificand(t);
    var body := t + "E" + exp;
    assert body == t + ("E" + exp);
    ExponentMarkSkip(t, "E" + exp);
    AroundMark(t, 'E', exp);
    ParseUnsignedAtMark(body, |t|);
  }

  /** Digits around a point are significand characters only. */
  lemma PointTextChars(intPart: string, fraction: string)
    requires AllDigits(intPart) && AllDigits(fraction)
    ensures var t := intPart + "." + fraction;
            forall i :: 0 <= i < |t| ==> IsDigit(t[i]) || t[i] == '.'
  {
    var t := intPart + "." + fraction;
    assert forall i :: |intPart| < i < |t| ==> t[i] == fraction[i - |intPart| - 1];
  }

  /** Digits, a point and more digits parse with one scale step per fraction digit. */
  lemma ParsePointText(intPart: string, fraction: string)
    requires AllDigits(intPart) && AllDigits(fraction) && |intPart| >= 1
    ensures AllDigits(intPart + fraction)
    ensures var r := ParseUnsigned(intPart + "." + fraction);
            r.Some? && r.value == Decimal(DigitsValue(intPart + fraction), |fraction|)
  {
    ParseSignificandPoint(intPart, fraction);
    PointTextChars(intPart, fraction);
    ParseUnsignedPlain(intPart + "." + fraction);
  }

  /** The two shapes of plain notation: `0.` and zero padding, or a point inside the digits. */
  lemma PlainTextShape(coeff: string, scale: nat)
    requires AllDigits(coeff) && |coeff| >= 1 && scale > 0
    ensures scale >= |coeff| ==> PlainText(coeff, scale) == "0" + "." + (Zeros(scale - |coeff|) + coeff)
    ensures scale < |coeff| ==>
              var k := |coeff| - scale;
              PlainText(coeff, scale) == coeff[..k] + "." + coeff[k..] &&
              AllDigits(coeff[..k]) && AllDigits(coeff[k..]) && coeff[..k] + coeff[k..] == coeff
  {
  }

  lemma ParsePlainText(coeff: string, scale: nat)
    requires AllDigits(coeff) && |coeff| >= 1 && scale > 0
    ensures var r := ParseUnsigned(PlainText(coeff, scale));
            r.Some? && r.value == Decimal(DigitsValue(coeff), scale)
  {
    PlainTextShape(coeff, scale);
    if scale >= |coeff| {
      var fraction := Zeros(scale - |coeff|) + coeff;
      DigitsValueZerosPrefix(scale - |coeff|, coeff);
      DigitsValueLeadingZero(fraction);
      ParsePointText("0", fraction);
    } else {
      var k := |coeff| - scale;
      ParsePointText(coeff[..k], coeff[k..]);
    }
  }

  lemma DigitsAreSignificandChars(t: string)
    requires AllDigits(t)
    ensures forall i :: 0 <= i < |t| ==> IsDigit(t[i]) || t[i] == '.'
  {
  }

  /** Scientific notation is a significand, `E` and the exponent text. */
  lemma ScientificTextShape(coeff: string, adjusted: int)
    requires AllDigits(coeff) && |coeff| >= 1
    ensures |coeff| > 1 ==> ScientificText(coeff, adjusted) == (coeff[..1] + "." + coeff[1..]) + "E" + ExponentText(adjusted)
    ensures |coeff| > 1 ==> AllDigits(coeff[..1]) && AllDigits(coeff[1..]) && coeff[..1] + coeff[1..] == coeff
    ensures |coeff| == 1 ==> ScientificText(coeff, adjusted) == coeff + "E" + ExponentText(adjusted)
  {
    if |coeff| == 1 {
      assert coeff[..1] == coeff;
    }
  }

  /** The exponent text parses back to the adjusted exponent. */
  lemma ParseExponentTextOf(adjusted: int)
    ensures var r := ParseExponent(ExponentText(adjusted)); r.Some? && r.value == adjusted
  {
    ParseExponentText(Abs(adjusted));
  }

  lemma ParseScientificText(coeff: string, adjusted: int)
    requires AllDigits(coeff) && |coeff| >= 1
    ensures var r := ParseUnsigned(ScientificText(coeff, adjusted));
            r.Some? && r.value == Decimal(DigitsValue(coeff), (|coeff| - 1) - adjusted)
  {
    ScientificTextShape(coeff, adjusted);
    ParseExponentTextOf(adjusted);
    var exp := ExponentText(adjusted);
    if |coeff| > 1 {
      var t := coeff[..1] + "." + coeff[1..];
      ParseSignificandPoint(coeff[..1], coeff[1..]);
      PointTextChars(coeff[..1], coeff[1..]);
      ParseUnsignedScientific(t, exp);
    } else {
      ParseSignificandWhole(coeff);
      DigitsAreSignificandChars(coeff);
      ParseUnsignedScientific(coeff, exp);
    }
  }

  /** `toString` of a non-negative value parses back to that value. */
  lemma ParseMagnitudeText(n: nat, scale: int)
    ensures var r := ParseUnsigned(MagnitudeText(NatText(n), scale));
            r.Some? && r.value == Decimal(n, scale)
  {
    var coeff := NatText(n);
    var adjusted := AdjustedExponent(coeff, scale);
    if scale == 0 {
      ParseSignificandWhole(coeff);
      ParseUnsignedPlain(coeff);
    } else if scale > 0 && adjusted >= -6 {
      ParsePlainText(coeff, scale);
    } else {
      ParseScientificText(coeff, adjusted);
    }
  }

  /** `toString` of a magnitude starts with a digit, so the parser sees no sign there. */
  lemma FirstOfMagnitudeText(n: nat, scale: int)
    ensures |MagnitudeText(NatText(n), scale)| >= 1 && IsDigit(MagnitudeText(NatText(n), scale)[0])
  {
  }

  // ---------------------------------------------------------------------
  // The characters `toString` uses

  /** Digits, signs, the point and the exponent marker: never a comma or a quote. */
  predicate NumberText(s: string)
  {
    forall i :: 0 <= i < |s| ==> IsDigit(s[i]) || s[i] == '-' || s[i] == '+' || s[i] == '.' || s[i] == 'E'
  }

  lemma NumberTextConcat(a: string, b: string)
    requires NumberText(a) && NumberText(b)
    ensures NumberText(a + b)
  {
    assert forall i :: |a| <= i < |a + b| ==> (a + b)[i] == b[i - |a|];
  }

  lemma DigitsAreNumberText(s: string)
    requires AllDigits(s)
    ensures NumberText(s)
  {
  }

  lemma MagnitudeTextChars(coeff: string, scale: int)
    requires AllDigits(coeff) && |coeff| >= 1
    ensures NumberText(MagnitudeText(coeff, scale))
  {
    DigitsAreNumberText(coeff);
    var adjusted := AdjustedExponent(coeff, scale);
    if scale == 0 {
    } else if scale > 0 && adjusted >= -6 {
      var z := Zeros(if scale >= |coeff| then scale - |coeff| else 0);
      DigitsAreNumberText(z);
      DigitsAreNumberText(coeff[..|coeff| - (if scale < |coeff| then scale else 0)]);
      DigitsAreNumberText(coeff[|coeff| - (if scale < |coeff| then scale else 0)..]);
      if scale >= |coeff| {
        NumberTextConcat("0.", z);
        NumberTextConcat("0." + z, coeff);
      } else {
        var k := |coeff| - scale;
        NumberTextConcat(coeff[..k], ".");
        NumberTextConcat(coeff[..k] + ".", coeff[k..]);
      }
    } else {
      var exp := ExponentText(adjusted);
      var digits := NatText(Abs(adjusted));
      DigitsAreNumberText(digits);
      NumberTextConcat("+", digits);
      NumberTextConcat("-", digits);
      assert NumberText(exp);
      DigitsAreNumberText(coeff[..1]);
      DigitsAreNumberText(coeff[1..]);
      NumberTextConcat(".", coeff[1..]);
      var middle := if |coeff| > 1 then "." + coeff[1..] else "";
      NumberTextConcat(coeff[..1], middle);
      NumberTextConcat(coeff[..1] + middle, "E");
      NumberTextConcat(coeff[..1] + middle + "E", exp);
    }
  }

  /** The text of a decimal holds no comma, so a comma after it marks where it ends. */
  lemma DecimalTextChars(d: Decimal)
    ensures NumberText(DecimalText(d))
    ensures ',' !in DecimalText(d)
  {
    var m := MagnitudeText(NatText(Abs(d.unscaled)), d.scale);
    MagnitudeTextChars(NatText(Abs(d.unscaled)), d.scale);
    NumberTextConcat(if d.unscaled < 0 then "-" else "", m);
  }

  // ---------------------------------------------------------------------
  // The round trip

  /** A leading `-` negates what the rest parses to; text starting with a digit parses unsigned. */
  lemma ParseDecimalSign(m: string)
    requires |m| >= 1 && IsDigit(m[0]) && ParseUnsigned(m).Some?
    ensures ParseDecimal(m) == ParseUnsigned(m)
    ensures var r := ParseDecimal("-" + m);
            r.Some? && r.value == Decimal(-ParseUnsigned(m).value.unscaled, ParseUnsigned(m).value.scale)
  {
    assert ("-" + m)[1..] == m;
  }

  /** Parsing what `toString` prints gives back the same unscaled value and scale. */
  lemma ParseDecimalText(d: Decimal)
    ensures ParseDecimal(DecimalText(d)) == Some(d)
  {
    var m := MagnitudeText(NatText(Abs(d.unscaled)), d.scale);
    ParseMagnitudeText(Abs(d.unscaled), d.scale);
    FirstOfMagnitudeText(Abs(d.unscaled), d.scale);
    ParseDecimalSign(m);
    if d.unscaled >= 0 {
      assert DecimalText(d) == m;
    }
  }
}
