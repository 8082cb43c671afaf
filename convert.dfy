/** Quotation (units, nano) to price, as utils/convert.py builds it: the text
    `str(units) + "." + f'{abs(nano):09}'` handed to `float()`. The parse is
    modelled exactly on decimal text; rounding to a binary double is not. */
module Convert {
  import opened Wrappers

  function Abs(n: int): nat { if n < 0 then -n else n }

  function Pow10(k: nat): (r: nat)
    ensures r >= 1
  {
    if k == 0 then 1 else 10 * Pow10(k - 1)
  }

  /** x / 10^k, one decimal place at a time. */
  function Scaled(x: real, k: nat): real
  {
    if k == 0 then x else Scaled(x, k - 1) / 10.0
  }

  lemma {:induction false} ScaledIsDivision(x: real, k: nat)
    ensures Scaled(x, k) == x / Pow10(k) as real
  {
    if k > 0 {
      ScaledIsDivision(x, k - 1);
      var p := Pow10(k - 1) as real;
      assert Pow10(k) as real == 10.0 * p;
      assert (x / p) / 10.0 == x / (10.0 * p);
    }
  }

  const NanoPerUnit: nat := 1_000_000_000
  /** The minimum width of the zero-padded nano field. */
  const NanoWidth: nat := 9

  predicate IsDigit(c: char) { '0' <= c <= '9' }

  predicate AllDigits(s: string) { forall i | 0 <= i < |s| :: IsDigit(s[i]) }

  function DigitChar(d: int): (c: char)
    requires 0 <= d < 10
    ensures IsDigit(c)
  {
    (48 + d) as char
  }

  function DigitValue(c: char): (d: nat)
    requires IsDigit(c)
    ensures d < 10
  {
    c as int - 48
  }

  /** `str(n)` of a non-negative int: decimal digits without leading zeros. */
  function NatToString(n: nat): (s: string)
    ensures |s| >= 1 && AllDigits(s)
    ensures |s| > 1 ==> s[0] != '0'
  {
    if n < 10 then [DigitChar(n)] else NatToString(n / 10) + [DigitChar(n % 10)]
  }

  /** `str(n)` of an int. */
  function IntToString(n: int): string
  {
    if n < 0 then "-" + NatToString(-n) else NatToString(n)
  }

  /** `f'{s:0w}'`: left-padded with zeros to at least `width` characters. */
  function ZeroPad(s: string, width: nat): (r: string)
    decreases width - |s|
  {
    if |s| < width then ZeroPad(['0'] + s, width) else s
  }

  /** The text quotation_to_price builds before parsing it. */
  function QuotationText(units: int, nano: int): string
  {
    IntToString(units) + "." + ZeroPad(NatToString(Abs(nano)), NanoWidth)
  }

  /** The value of a string of decimal digits. */
  function DigitsValue(s: string): nat
    requires AllDigits(s)
  {
    if |s| == 0 then 0 else 10 * DigitsValue(s[..|s| - 1]) + DigitValue(s[|s| - 1])
  }

  /** Index of the first '.', or the length when there is none. */
  function DotIndex(s: string): (k: nat)
    ensures k <= |s|
    ensures k < |s| ==> s[k] == '.'
  {
    if |s| == 0 then 0 else if s[0] == '.' then 0 else 1 + DotIndex(s[1..])
  }

  /** `float()` on unsigned decimal text `digits[.digits]` with at least one digit. */
  function ParseUnsigned(s: string): Option<real>
  {
    var k := DotIndex(s);
    ParseParts(s[..k], if k < |s| then s[k + 1..] else "")
  }

  /** The value of the digits before and after the decimal point. */
  function ParseParts(whole: string, fraction: string): Option<real>
  {
    if AllDigits(whole) && AllDigits(fraction) && |whole| + |fraction| > 0 then
      Some(DigitsValue(whole) as real + Scaled(DigitsValue(fraction) as real, |fraction|))
    else None
  }

  /** `float()` on decimal text with an optional leading minus sign. */
  function ParseDecimal(s: string): Option<real>
  {
    if |s| > 0 && s[0] == '-' then
      match ParseUnsigned(s[1..])
      case None => None
      case Some(v) => Some(-v)
    else ParseUnsigned(s)
  }

  /** `Convert.quotation_to_price`. */
  function QuotationToPrice(units: int, nano: int): (r: real)
    ensures ParseDecimal(QuotationText(units, nano)) == Some(r)
  {
    QuotationValue(units, nano);
    ParseDecimal(QuotationText(units, nano)).value
  }

  /** Number of fractional digits in the text: at least nine, more when the
      nano field does not fit in nine digits. */
  function FractionWidth(nano: int): nat
  {
    |ZeroPad(NatToString(Abs(nano)), NanoWidth)|
  }

  // ---------------------------------------------------------------------
  // Digits

  lemma {:induction false} DigitsValueAppend(s: string, c: char)
    requires AllDigits(s) && IsDigit(c)
    ensures AllDigits(s + [c]) && DigitsValue(s + [c]) == 10 * DigitsValue(s) + DigitValue(c)
  {
    assert (s + [c])[..|s|] == s;
  }

  /** Reading back the digits of `str(n)` gives `n`. */
  lemma {:induction false} NatToStringValue(n: nat)
    ensures DigitsValue(NatToString(n)) == n
  {
    if n < 10 {
      assert NatToString(n)[..0] == [];
    } else {
      NatToStringValue(n / 10);
      DigitsValueAppend(NatToString(n / 10), DigitChar(n % 10));
    }
  }

  /** A leading zero does not change the value of a digit string. */
  lemma {:induction false} LeadingZero(s: string)
    requires AllDigits(s)
    ensures AllDigits(['0'] + s) && DigitsValue(['0'] + s) == DigitsValue(s)
    decreases |s|
  {
    if |s| == 0 {
      assert (['0'] + s)[..0] == [];
    } else {
      var init := s[..|s| - 1];
      assert ['0'] + s == (['0'] + init) + [s[|s| - 1]];
      assert s == init + [s[|s| - 1]];
      LeadingZero(init);
      DigitsValueAppend(['0'] + init, s[|s| - 1]);
      DigitsValueAppend(init, s[|s| - 1]);
    }
  }

  /** Padding keeps the digits and their value and gives at least `width`
      characters. */
  lemma {:induction false} ZeroPadValue(s: string, width: nat)
    requires AllDigits(s)
    ensures AllDigits(ZeroPad(s, width)) && DigitsValue(ZeroPad(s, width)) == DigitsValue(s)
    ensures |ZeroPad(s, width)| == if |s| < width then width else |s|
    decreases width - |s|
  {
    if |s| < width {
      LeadingZero(s);
      ZeroPadValue(['0'] + s, width);
    }
  }

  lemma {:induction false} Pow10Monotone(i: nat, j: nat)
    requires i <= j
    ensures Pow10(i) <= Pow10(j)
  {
    if i < j { Pow10Monotone(i, j - 1); }
  }

  /** `str(n)` has exactly as many digits as the magnitude of `n` needs. */
  lemma {:induction false} NatToStringLength(n: nat)
    ensures n < Pow10(|NatToString(n)|)
    ensures |NatToString(n)| > 1 ==> Pow10(|NatToString(n)| - 1) <= n
  {
    if n >= 10 { NatToStringLength(n / 10); }
  }

  /** The padded nano field has exactly nine digits iff |nano| < 10^9. */
  lemma NanoFieldWidth(nano: int)
    ensures FractionWidth(nano) >= NanoWidth
    ensures FractionWidth(nano) == NanoWidth <==> Abs(nano) < NanoPerUnit
  {
    var s := NatToString(Abs(nano));
    NatToStringLength(Abs(nano));
    ZeroPadValue(s, NanoWidth);
    assert Pow10(9) == NanoPerUnit;
    if |s| <= 9 {
      Pow10Monotone(|s|, 9);
    } else {
      Pow10Monotone(9, |s| - 1);
    }
  }

  // ---------------------------------------------------------------------
  // The parse of the built text

  lemma DotIndexAfter(a: string, b: string)
    requires forall i | 0 <= i < |a| :: a[i] != '.'
    ensures DotIndex(a + "." + b) == |a|
    decreases |a|
  {
    if |a| > 0 {
      assert (a + "." + b)[1..] == a[1..] + "." + b;
      DotIndexAfter(a[1..], b);
    }
  }

  lemma ParseDigitsDotDigits(a: string, b: string)
    requires AllDigits(a) && AllDigits(b) && |a| > 0
    ensures ParseUnsigned(a + "." + b) == ParseParts(a, b)
  {
    var s := a + "." + b;
    DotIndexAfter(a, b);
    var k := DotIndex(s);
    assert k == |a|;
    assert ParseUnsigned(s) == ParseParts(s[..k], s[k + 1..]);
    assert s[..k] == a;
    assert s[k + 1..] == b;
  }

  /** The padded nano field is a digit string worth |nano|. */
  lemma PaddedNanoValue(nano: int)
    ensures AllDigits(ZeroPad(NatToString(Abs(nano)), NanoWidth))
    ensures DigitsValue(ZeroPad(NatToString(Abs(nano)), NanoWidth)) == Abs(nano)
  {
    var digits := NatToString(Abs(nano));
    NatToStringValue(Abs(nano));
    ZeroPadValue(digits, NanoWidth);
  }

  /** Text whose first character is a minus sign parses to the negated
      value of the rest. */
  lemma ParseMinus(text: string, u: string, v: real)
    requires |text| > 0 && text[0] == '-' && text[1..] == u && ParseUnsigned(u) == Some(v)
    ensures ParseDecimal(text) == Some(-v)
  {
  }

  /** Text that does not start with a minus sign parses unsigned. */
  lemma ParsePlain(text: string, v: real)
    requires ParseUnsigned(text) == Some(v) && |text| > 0 && text[0] != '-'
    ensures ParseDecimal(text) == Some(v)
  {
  }

  lemma MinusSplit(text: string, u: string)
    requires text == "-" + u
    ensures |text| > 0 && text[0] == '-' && text[1..] == u
  {
  }

  /** The built text is the unsigned `digits.digits` body, behind a minus
      sign when units is negative. */
  lemma QuotationTextShape(units: int, nano: int)
    ensures var body := NatToString(Abs(units)) + "." + ZeroPad(NatToString(Abs(nano)), NanoWidth);
            QuotationText(units, nano) == if units < 0 then "-" + body else body
  {
  }

  /** The unsigned body of the text is worth |units| + |nano| / 10^width. */
  lemma QuotationBodyValue(units: int, nano: int)
    ensures var body := NatToString(Abs(units)) + "." + ZeroPad(NatToString(Abs(nano)), NanoWidth);
            ParseUnsigned(body) == Some(Abs(units) as real + Fraction(nano))
            && body[0] != '-'
  {
    var padded := ZeroPad(NatToString(Abs(nano)), NanoWidth);
    var whole := NatToString(Abs(units));
    PaddedNanoValue(nano);
    NatToStringValue(Abs(units));
    ParseDigitsDotDigits(whole, padded);
    assert (whole + "." + padded)[0] == whole[0];
  }

  /** What quotation_to_price computes: `units` plus (or, for negative units,
      minus) |nano| scaled by the width of the padded field; the sign of nano
      never reaches the result. */
  lemma QuotationValue(units: int, nano: int)
    ensures units < 0 ==> ParseDecimal(QuotationText(units, nano)) == Some(units as real - Fraction(nano))
    ensures units >= 0 ==> ParseDecimal(QuotationText(units, nano)) == Some(units as real + Fraction(nano))
  {
    if units < 0 {
      NegativeQuotationValue(units, nano);
    } else {
      NonNegativeQuotationValue(units, nano);
    }
  }

  lemma NegativeQuotationValue(units: int, nano: int)
    requires units < 0
    ensures ParseDecimal(QuotationText(units, nano)) == Some(units as real - Fraction(nano))
  {
    var body := NatToString(Abs(units)) + "." + ZeroPad(NatToString(Abs(nano)), NanoWidth);
    QuotationTextShape(units, nano);
    QuotationBodyValue(units, nano);
    NegativeTextValue(QuotationText(units, nano), body, units, Fraction(nano));
  }

  lemma NonNegativeQuotationValue(units: int, nano: int)
    requires units >= 0
    ensures ParseDecimal(QuotationText(units, nano)) == Some(units as real + Fraction(nano))
  {
    var body := NatToString(Abs(units)) + "." + ZeroPad(NatToString(Abs(nano)), NanoWidth);
    QuotationTextShape(units, nano);
    QuotationBodyValue(units, nano);
    NonNegativeTextValue(QuotationText(units, nano), body, units, Fraction(nano));
  }

  /** Behind a minus sign, a body worth |units| + frac parses to units - frac. */
  lemma NegativeTextValue(text: string, body: string, units: int, frac: real)
    requires units < 0 && text == "-" + body
    requires ParseUnsigned(body) == Some(Abs(units) as real + frac)
    ensures ParseDecimal(text) == Some(units as real - frac)
  {
    MinusSplit(text, body);
    ParseMinus(text, body, Abs(units) as real + frac);
    SignedMagnitude(units, frac);
  }

  /** Without a sign, a body worth |units| + frac parses to units + frac. */
  lemma NonNegativeTextValue(text: string, body: string, units: int, frac: real)
    requires units >= 0 && text == body
    requires ParseUnsigned(body) == Some(Abs(units) as real + frac) && |body| > 0 && body[0] != '-'
    ensures ParseDecimal(text) == Some(units as real + frac)
  {
    ParsePlain(text, Abs(units) as real + frac);
    SignedMagnitude(units, frac);
  }

  lemma SignedMagnitude(units: int, frac: real)
    ensures units < 0 ==> -(Abs(units) as real + frac) == units as real - frac
    ensures units >= 0 ==> Abs(units) as real + frac == units as real + frac
  {
  }

  /** The fractional part the text contributes: |nano| over ten to the
      number of fractional digits. */
  function Fraction(nano: int): real
  {
    Scaled(Abs(nano) as real, FractionWidth(nano))
  }

  /** For a nano field below 10^9 the fraction is |nano| / 10^9. */
  lemma QuotationValueInRange(units: int, nano: int)
    requires Abs(nano) < NanoPerUnit
    ensures QuotationToPrice(units, nano) ==
      if units < 0 then units as real - Abs(nano) as real / NanoPerUnit as real
      else units as real + Abs(nano) as real / NanoPerUnit as real
  {
    QuotationValue(units, nano);
    NanoFieldWidth(nano);
    ScaledIsDivision(Abs(nano) as real, NanoWidth);
    assert Pow10(9) == NanoPerUnit;
  }

  /** A nano field of 10^9 or more yields more than nine fractional digits. */
  lemma OverlongNanoWidensFraction(nano: int)
    requires Abs(nano) >= NanoPerUnit
    ensures FractionWidth(nano) > NanoWidth
  {
    NanoFieldWidth(nano);
  }

  // ---------------------------------------------------------------------
  // The library conversion used elsewhere in the repository

  /** `quotation_to_decimal`: units + nano / 10^9, signs included. */
  function QuotationToDecimal(units: int, nano: int): (r: real)
    ensures units == 0 ==> (r < 0.0 <==> nano < 0)
    ensures Abs(nano) < NanoPerUnit && units * nano >= 0 ==>
      ((r < 0.0 <==> units < 0 || nano < 0) && (r > 0.0 <==> units > 0 || nano > 0))
  {
    units as real + nano as real / NanoPerUnit as real
  }

  /** Where the quotation's fields share a sign and units is not zero (or
      nano is not negative), the text-built price equals the decimal value. */
  lemma ConvertersAgree(units: int, nano: int)
    requires Abs(nano) < NanoPerUnit
    requires (units >= 0 && nano >= 0) || (units < 0 && nano <= 0)
    ensures QuotationToPrice(units, nano) == QuotationToDecimal(units, nano)
  {
    QuotationValueInRange(units, nano);
  }

  /** With zero units and a negative nano the text loses the minus sign:
      Quotation(0, -10000000) gives 0.01 where the decimal value is -0.01. */
  lemma ZeroUnitsLoseNanoSign()
    ensures QuotationToPrice(0, -10_000_000) == 0.01
    ensures QuotationToDecimal(0, -10_000_000) == -0.01
  {
    QuotationValueInRange(0, -10_000_000);
  }

  /** The cases of tests/test_convert.py hold for the decimal conversion. */
  lemma DecimalConversionExamples()
    ensures QuotationToDecimal(114, 250_000_000) == 114.25
    ensures QuotationToDecimal(-200, -200_000_000) == -200.2
    ensures QuotationToDecimal(0, -10_000_000) == -0.01
    ensures QuotationToDecimal(0, 37_180_000) == 0.03718
  {
  }
}
