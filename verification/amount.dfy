/**
  The amount check every form page performs, `parseFloat(amount) > 0`.

  `parseFloat` skips leading white space and reads the longest prefix that is a
  decimal literal: an optional sign, then `Infinity` or digits with an optional
  fraction and an optional exponent. With no such prefix the result is `NaN`.
  The parsed value is kept exact here, as sign, mantissa and power of ten.
 */
module Amount {
  import opened Wrappers
  import opened Text

  datatype Number =
    | NaN
    | Infinity(negative: bool)
    | Finite(negative: bool, mantissa: nat, exponent: int)   // ±mantissa × 10^exponent

  /** `n > 0` for a parsed number; `NaN > 0` is false in JavaScript. */
  predicate IsPositive(n: Number) {
    match n
    case NaN => false
    case Infinity(neg) => !neg
    case Finite(neg, m, _) => !neg && m > 0
  }

  /** The length of the longest prefix of `s` made of decimal digits. */
  function DigitRun(s: string): (k: nat)
    ensures k <= |s| && AllDigits(s[..k])
    ensures k == |s| || !IsDigit(s[k])
  {
    if |s| > 0 && IsDigit(s[0]) then
      var k := 1 + DigitRun(s[1..]);
      assert forall i :: 1 <= i < k ==> s[..k][i] == s[1..][..k - 1][i - 1];
      k
    else 0
  }

  /** An exponent part `e`/`E`, optional sign, at least one digit; otherwise none. */
  function ExponentPart(s: string): Option<int> {
    if |s| >= 2 && (s[0] == 'e' || s[0] == 'E') then
      var negative := s[1] == '-';
      var digits := if s[1] == '+' || s[1] == '-' then s[2..] else s[1..];
      var k := DigitRun(digits);
      if k == 0 then None
      else Some(if negative then -(DigitsValue(digits[..k]) as int) else DigitsValue(digits[..k]))
    else None
  }

  /** What follows the sign: `Infinity`, a decimal literal, or nothing readable. */
  datatype Magnitude = NoLiteral | Infinite | Decimal(mantissa: nat, exponent: int)

  /** Digits, an optional point with more digits, then an optional exponent. */
  function ParseDecimal(body: string): Magnitude {
    var w := DigitRun(body);
    AfterWhole(body[..w], body[w..])
  }

  /** What follows the integer digits `whole`: a point and a fraction, or the exponent. */
  function AfterWhole(whole: string, rest: string): Magnitude
    requires AllDigits(whole)
  {
    if |rest| > 0 && rest[0] == '.' then AfterPoint(whole, rest[1..])
    else if |whole| == 0 then NoLiteral
    else Decimal(DigitsValue(whole), ExponentPart(rest).GetOr(0))
  }

  /** The fraction digits after the point: the longest run, then the exponent. */
  function AfterPoint(whole: string, rest: string): Magnitude
    requires AllDigits(whole)
  {
    var f := DigitRun(rest);
    WithFraction(whole, rest[..f], rest[f..])
  }

  /** Each fraction digit joins the mantissa and lowers the exponent by one; a lone point is no literal. */
  function WithFraction(whole: string, fraction: string, tail: string): Magnitude
    requires AllDigits(whole) && AllDigits(fraction)
  {
    if |whole| + |fraction| == 0 then NoLiteral
    else
      AllDigitsConcat(whole, fraction);
      Decimal(DigitsValue(whole + fraction), ExponentPart(tail).GetOr(0) - |fraction|)
  }

  function ParseUnsigned(body: string): Magnitude {
    if StartsWith(body, "Infinity") then Infinite else ParseDecimal(body)
  }

  function Signed(negative: bool, m: Magnitude): Number {
    match m
    case NoLiteral => NaN
    case Infinite => Infinity(negative)
    case Decimal(mantissa, exponent) => Finite(negative, mantissa, exponent)
  }

  /** `parseFloat(s)`. */
  function ParseFloat(s: string): (r: Number)
    ensures AllSpace(s) ==> r == NaN
  {
    var t := TrimStart(s);
    if |t| > 0 && t[0] == '-' then Signed(true, ParseUnsigned(t[1..]))
    else if |t| > 0 && t[0] == '+' then Signed(false, ParseUnsigned(t[1..]))
    else Signed(false, ParseUnsigned(t))
  }

  /** `parseFloat(amount) > 0`. */
  predicate IsPositiveAmount(amount: string) {
    IsPositive(ParseFloat(amount))
  }

  /** `amount && parseFloat(amount) > 0`: the field is non-empty and reads as a positive number. */
  predicate PositiveField(amount: string)
    ensures PositiveField(amount) ==> amount != "" && amount[0] != '-'
  {
    if amount != "" && amount[0] == '-' then
      MinusIsNotPositive(amount);
      false
    else amount != "" && IsPositiveAmount(amount)
  }

  /** The emptiness test adds nothing: `parseFloat("")` is already `NaN`. */
  lemma PositiveFieldIsParse(amount: string)
    ensures PositiveField(amount) <==> IsPositiveAmount(amount)
  {
    if amount == "" {
      EmptyIsNotPositive();
    }
  }

  /**
    `parseInt(s)` on decimal text: white space, an optional sign, then the
    longest run of digits; `NaN` (here `None`) when there is no digit.
   */
  function ParseInt(s: string): (r: Option<int>)
    ensures AllSpace(s) ==> r.None?
  {
    var t := TrimStart(s);
    var negative := |t| > 0 && t[0] == '-';
    var body := if |t| > 0 && (t[0] == '-' || t[0] == '+') then t[1..] else t;
    var k := DigitRun(body);
    if k == 0 then None
    else
      var v: int := DigitsValue(body[..k]);
      Some(if negative then -v else v)
  }

  /** `parseInt` reads back the rendering of a natural number. */
  lemma ParseIntNatString(n: nat)
    ensures ParseInt(NatToString(n)) == Some(n)
  {
    var s := NatToString(n);
    assert IsDigit(s[0]);
    assert !IsSpace(s[0]);
    assert TrimStart(s) == s;
    assert s[0] != '-' && s[0] != '+';
    DigitRunOfDigits(s);
    assert s[..|s|] == s;
    NatToStringRoundTrip(n);
  }

  /** Text with no digit at all gives `NaN` (here `None`): `parseInt("")`, `parseInt("-")`, `parseInt("abc")`. */
  lemma ParseIntNeedsDigits(s: string)
    requires forall i :: 0 <= i < |s| ==> !IsDigit(s[i])
    ensures ParseInt(s) == None
  {
    var t := TrimStart(s);
    var body := if |t| > 0 && (t[0] == '-' || t[0] == '+') then t[1..] else t;
    if |body| > 0 {
      assert body[0] in s;
    }
  }

  /** Text whose first visible character cannot start a literal (`"NaN"`, `"abc"`) parses to `NaN`. */
  lemma NoLiteralIsNaN(s: string)
    requires |s| > 0 && !IsSpace(s[0]) && !IsDigit(s[0])
    requires s[0] != '-' && s[0] != '+' && s[0] != '.' && s[0] != 'I'
    ensures ParseFloat(s) == NaN
    ensures !IsPositiveAmount(s)
  {
    TrimStartKeeps(s);
    if |s| >= 8 {
      assert s[..8][0] == s[0];
    }
  }

  /** An empty field parses to `NaN`, so it is never a positive amount. */
  lemma EmptyIsNotPositive()
    ensures ParseFloat("") == NaN
    ensures !IsPositiveAmount("")
  {
  }

  /** Text that does not begin with white space is left alone by `TrimStart`. */
  lemma TrimStartKeeps(s: string)
    requires |s| == 0 || !IsSpace(s[0])
    ensures TrimStart(s) == s
  {
  }

  /** The digit run is the maximal one: it ends at the first non-digit. */
  lemma DigitRunIsMaximal(s: string, k: nat)
    requires k <= |s| && AllDigits(s[..k])
    requires k == |s| || !IsDigit(s[k])
    ensures DigitRun(s) == k
  {
    var r := DigitRun(s);
    assert forall i :: 0 <= i < k ==> s[..k][i] == s[i];
    assert forall i :: 0 <= i < r ==> s[..r][i] == s[i];
  }

  /** A digit string is one run of digits. */
  lemma DigitRunOfDigits(s: string)
    requires AllDigits(s)
    ensures DigitRun(s) == |s|
  {
    assert s[..|s|] == s;
    DigitRunIsMaximal(s, |s|);
  }

  /** Text that begins with a digit or a point is read as an unsigned decimal literal. */
  lemma ReadsDecimal(s: string)
    requires |s| > 0 && (IsDigit(s[0]) || s[0] == '.')
    ensures ParseFloat(s) == Signed(false, ParseDecimal(s))
  {
    TrimStartKeeps(s);
    if |s| >= 8 {
      assert s[..8][0] == s[0];
    }
  }

  /** A literal of `k > 0` digits not followed by a point: the digits, then an optional exponent. */
  lemma DecimalWithoutPoint(body: string, k: nat)
    requires 0 < k <= |body| && AllDigits(body[..k])
    requires k == |body| || (!IsDigit(body[k]) && body[k] != '.')
    ensures ParseDecimal(body) == Decimal(DigitsValue(body[..k]), ExponentPart(body[k..]).GetOr(0))
  {
    DigitRunIsMaximal(body, k);
  }

  /** `k` digits and a point: what follows is read as the fraction. */
  lemma WholeThenPoint(body: string, k: nat)
    requires k < |body| && AllDigits(body[..k]) && body[k] == '.'
    ensures ParseDecimal(body) == AfterPoint(body[..k], body[k + 1..])
  {
    DigitRunIsMaximal(body, k);
    assert body[k..][1..] == body[k + 1..];
  }

  /** The fraction is the maximal run of digits after the point. */
  lemma FractionDigits(whole: string, rest: string, f: nat)
    requires AllDigits(whole) && f <= |rest| && AllDigits(rest[..f])
    requires f == |rest| || !IsDigit(rest[f])
    ensures AfterPoint(whole, rest) == WithFraction(whole, rest[..f], rest[f..])
  {
    DigitRunIsMaximal(rest, f);
  }

  lemma AllDigitsConcat(a: string, b: string)
    requires AllDigits(a) && AllDigits(b)
    ensures AllDigits(a + b)
  {
  }

  /** A run of zeros has the value 0. */
  lemma {:induction false} ZerosValue(s: string)
    requires forall i :: 0 <= i < |s| ==> s[i] == '0'
    ensures AllDigits(s) && DigitsValue(s) == 0
  {
    if |s| > 0 {
      ZerosValue(s[..|s| - 1]);
    }
  }

  /** Text that begins with a minus sign reads as a negative number or as `NaN`, never as a positive one. */
  lemma MinusIsNotPositive(s: string)
    requires |s| > 0 && s[0] == '-'
    ensures !IsPositiveAmount(s)
  {
    TrimStartKeeps(s);
  }

  /** The rendering of a natural number parses back to exactly that number. */
  lemma ParseNatString(n: nat)
    ensures ParseFloat(NatToString(n)) == Finite(false, n, 0)
    ensures IsPositiveAmount(NatToString(n)) <==> n > 0
  {
    var s := NatToString(n);
    ReadsDecimal(s);
    assert s[..|s|] == s;
    DecimalWithoutPoint(s, |s|);
    NatToStringRoundTrip(n);
  }

  /** A leading minus sign makes every finite amount non-positive. */
  lemma NegatedIsNotPositive(n: nat)
    ensures !IsPositiveAmount("-" + NatToString(n))
  {
    MinusIsNotPositive("-" + NatToString(n));
  }

  /**
    Zeros, a point and more zeros (`"0.00"`, `".0"`, `"00.0abc"`) read as
    zero, which is not a positive amount.
   */
  lemma ZeroWithFractionIsNotPositive(s: string, k: nat, f: nat)
    requires k < |s| && s[k] == '.' && k + f > 0 && k + 1 + f <= |s|
    requires forall i :: 0 <= i < k ==> s[i] == '0'
    requires forall i :: k + 1 <= i < k + 1 + f ==> s[i] == '0'
    requires k + 1 + f == |s| || !IsDigit(s[k + 1 + f])
    ensures ParseFloat(s).Finite? && ParseFloat(s).mantissa == 0
    ensures !IsPositiveAmount(s)
  {
    var whole := s[..k];
    var rest := s[k + 1..];
    var fraction := rest[..f];
    assert IsDigit(s[0]) || s[0] == '.' by {
      if k > 0 {
        assert whole[0] == '0';
      }
    }
    assert forall i :: 0 <= i < |whole + fraction| ==> (whole + fraction)[i] == '0' by {
      assert forall i :: 0 <= i < |fraction| ==> fraction[i] == s[k + 1 + i];
    }
    ZerosValue(whole + fraction);
    assert AllDigits(whole) && AllDigits(fraction) by {
      assert forall i :: 0 <= i < |whole| ==> whole[i] == (whole + fraction)[i];
      assert forall i :: 0 <= i < |fraction| ==> fraction[i] == (whole + fraction)[|whole| + i];
    }
    assert f == |rest| || !IsDigit(rest[f]);
    ReadsDecimal(s);
    WholeThenPoint(s, k);
    FractionDigits(whole, rest, f);
    assert WithFraction(whole, fraction, rest[f..]).mantissa == 0;
  }

  /**
    Digits followed by text that is neither a digit, a point nor an exponent
    (`"12abc"`) read as the digits alone.
   */
  lemma TrailingGarbageIsIgnored(s: string, k: nat)
    requires 0 < k < |s| && AllDigits(s[..k])
    requires !IsDigit(s[k]) && s[k] != '.' && s[k] != 'e' && s[k] != 'E'
    ensures ParseFloat(s) == Finite(false, DigitsValue(s[..k]), 0)
  {
    ReadsDecimal(s);
    DecimalWithoutPoint(s, k);
  }
}
