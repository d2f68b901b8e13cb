/**
 * The JavaScript values the client computes with: numbers that may be NaN or infinite, their
 * truthiness, IEEE division, and the decimal parsing of `parseInt` / `parseFloat` together with
 * the decimal rendering of integers (`id.toString()`).
 */
module JsValues {
  /** A JavaScript number: a finite value, one of the two infinities, or NaN. */
  datatype JsNumber = Finite(value: real) | PosInfinity | NegInfinity | NaN

  /** `n || fallback` picks the fallback exactly when n is 0 or NaN. */
  predicate Truthy(n: JsNumber) {
    !(n == Finite(0.0) || n.NaN?)
  }

  /**
   * `a / b` under IEEE 754 with a positive-zero divisor: a non-zero numerator over zero gives the
   * infinity of its sign and `0 / 0` gives NaN.
   */
  function Divide(a: real, b: real): (r: JsNumber)
    ensures b != 0.0 ==> r.Finite? && r.value * b == a
    ensures b == 0.0 ==> (r == PosInfinity <==> a > 0.0) && (r == NegInfinity <==> a < 0.0) && (r == NaN <==> a == 0.0)
  {
    if b != 0.0 then Finite(a / b)
    else if a > 0.0 then PosInfinity
    else if a < 0.0 then NegInfinity
    else NaN
  }

  /** `n * k` for a positive constant k: infinities and NaN are kept. */
  function Scale(n: JsNumber, k: real): (r: JsNumber)
    requires k > 0.0
    ensures r.Finite? <==> n.Finite?
    ensures r.Finite? ==> r.value == n.value * k
    ensures !n.Finite? ==> r == n
  {
    if n.Finite? then Finite(n.value * k) else n
  }

  predicate IsDigit(c: char) {
    '0' <= c <= '9'
  }

  predicate AllDigits(s: string) {
    forall i :: 0 <= i < |s| ==> IsDigit(s[i])
  }

  function DigitValue(c: char): (d: nat)
    requires IsDigit(c)
    ensures d < 10
  {
    c as int - '0' as int
  }

  function DigitChar(d: nat): (c: char)
    requires d < 10
    ensures IsDigit(c) && DigitValue(c) == d
  {
    ('0' as int + d) as char
  }

  /** The value of a string of decimal digits, most significant first. */
  function DigitsValue(s: string): nat
    requires AllDigits(s)
  {
    if s == [] then 0 else DigitsValue(s[..|s| - 1]) * 10 + DigitValue(s[|s| - 1])
  }

  /** The length of the longest run of digits at the start of `s`: where parsing stops. */
  function DigitRun(s: string): (n: nat)
    ensures n <= |s|
    ensures AllDigits(s[..n])
    ensures n < |s| ==> !IsDigit(s[n])
    ensures AllDigits(s) ==> n == |s|
  {
    if s == [] || !IsDigit(s[0]) then 0
    else
      var n := 1 + DigitRun(s[1..]);
      assert forall i :: 1 <= i < n ==> s[..n][i] == s[1..][..n - 1][i - 1];
      n
  }

  /** `n.toString()` for a natural number: decimal digits without leading zeros. */
  function NatToString(n: nat): (s: string)
    ensures |s| >= 1 && AllDigits(s)
    ensures n >= 10 ==> s[0] != '0'
  {
    if n < 10 then [DigitChar(n)]
    else
      var init := NatToString(n / 10);
      assert forall i :: 0 <= i < |init| ==> (init + [DigitChar(n % 10)])[i] == init[i];
      init + [DigitChar(n % 10)]
  }

  /** `n.toString()` for an integer. */
  function IntToString(n: int): (s: string)
    ensures |s| >= 1
    ensures s[0] == '-' <==> n < 0
  {
    if n < 0 then "-" + NatToString(-n) else NatToString(n)
  }

  /** The sign `parseInt` / `parseFloat` read before the digits, and where the digits begin. */
  function SignOf(s: string): (r: (real, nat))
    ensures r.1 <= |s|
    ensures r.0 == 1.0 || r.0 == -1.0
  {
    if |s| > 0 && s[0] == '-' then (-1.0, 1)
    else if |s| > 0 && s[0] == '+' then (1.0, 1)
    else (1.0, 0)
  }

  /**
   * `Number.parseInt(s)`: an optional sign, then the longest run of digits; no digits gives NaN.
   * Leading white space, other radixes and the `0x` prefix are not modelled.
   */
  function ParseInt(s: string): (r: JsNumber)
    ensures r.Finite? || r.NaN?
    ensures s == [] ==> r == NaN
    ensures AllDigits(s) && s != [] ==> r == Finite(DigitsValue(s) as real)
  {
    var (sign, start) := SignOf(s);
    var rest := s[start..];
    var n := DigitRun(rest);
    assert AllDigits(s) && s != [] ==> IsDigit(s[0]) && rest == s && rest[..n] == s;
    if n == 0 then NaN else Finite(sign * DigitsValue(rest[..n]) as real)
  }

  function Pow10(k: nat): (p: nat)
    ensures p >= 1
  {
    if k == 0 then 1 else 10 * Pow10(k - 1)
  }

  /**
   * `Number.parseFloat(s)`: an optional sign, integer digits, then an optional `.` and fraction
   * digits; with no digit on either side of the point the result is NaN. Leading white space,
   * exponents and the text `Infinity` are not modelled.
   */
  function ParseFloat(s: string): (r: JsNumber)
    ensures r.Finite? || r.NaN?
    ensures s == [] ==> r == NaN
    ensures AllDigits(s) && s != [] ==> r == Finite(DigitsValue(s) as real)
  {
    var (sign, start) := SignOf(s);
    var rest := s[start..];
    var k := DigitRun(rest);
    assert AllDigits(s) && s != [] ==> IsDigit(s[0]) && rest == s && rest[..k] == s && rest[k..] == [];
    var whole := DigitsValue(rest[..k]) as real;
    var after := rest[k..];
    var f := if |after| > 0 && after[0] == '.' then DigitRun(after[1..]) else 0;
    if k == 0 && f == 0 then NaN
    else
      var fraction := if f == 0 then 0.0 else DigitsValue(after[1..][..f]) as real / Pow10(f) as real;
      Finite(sign * (whole + fraction))
  }

  /** Reading back the decimal digits of a natural number gives the number. */
  lemma {:induction false} NatToStringValue(n: nat)
    ensures DigitsValue(NatToString(n)) == n
  {
    if n >= 10 {
      var s := NatToString(n);
      var init := NatToString(n / 10);
      assert s[..|s| - 1] == init;
      NatToStringValue(n / 10);
    }
  }

  /** `parseInt(n.toString())` is n, for every integer n: an id survives a trip through a text field. */
  lemma ParseIntOfIntToString(n: int)
    ensures ParseInt(IntToString(n)) == Finite(n as real)
  {
    var s := IntToString(n);
    if n < 0 {
      var t := NatToString(-n);
      assert s[1..] == t;
      NatToStringValue(-n);
      assert t[..|t|] == t;
    } else {
      NatToStringValue(n);
      assert s[..|s|] == s;
    }
  }

  /** `parseFloat(n.toString())` is n for every integer n. */
  lemma ParseFloatOfIntToString(n: int)
    ensures ParseFloat(IntToString(n)) == Finite(n as real)
  {
    var s := IntToString(n);
    if n < 0 {
      var t := NatToString(-n);
      assert s[1..] == t;
      NatToStringValue(-n);
      assert t[..|t|] == t;
      assert t[|t|..] == [];
    } else {
      NatToStringValue(n);
      assert s[..|s|] == s;
      assert s[|s|..] == [];
    }
  }

  /**
   * The text of a form field: typed by the user, or written by `Number.prototype.toString`, whose
   * output `parseFloat` reads back as the same number.
   */
  datatype FieldText = Typed(text: string) | NumberShown(number: real)

  /** `parseFloat` of a field's text. */
  function ParseFieldText(t: FieldText): (r: JsNumber)
    ensures t.NumberShown? ==> r == Finite(t.number)
    ensures t.Typed? ==> r == ParseFloat(t.text)
  {
    match t
    case Typed(s) => ParseFloat(s)
    case NumberShown(x) => Finite(x)
  }
}
