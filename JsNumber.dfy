/** The global `parseFloat` on which the progress bars rely, over real numbers.
    It skips leading white space, reads the longest prefix that is a decimal
    literal (optional sign, digits, optional fraction, optional exponent) and
    ignores whatever follows; a string with no such prefix is not a number. */
module JsNumber {
  import opened Wrappers

  /** White space and line terminators that parseFloat skips before the number. */
  predicate IsWhiteSpace(c: char) {
    c == '\t' || c == '\n' || c == '\U{000B}' || c == '\U{000C}' || c == '\r' || c == ' '
    || c == '\U{00A0}' || c == '\U{1680}' || ('\U{2000}' <= c <= '\U{200A}')
    || c == '\U{2028}' || c == '\U{2029}' || c == '\U{202F}' || c == '\U{205F}'
    || c == '\U{3000}' || c == '\U{FEFF}'
  }

  predicate IsDigit(c: char) {
    '0' <= c <= '9'
  }

  predicate AllDigits(s: string) {
    forall i :: 0 <= i < |s| ==> IsDigit(s[i])
  }

  /** Number of leading white-space characters. */
  function WhiteSpaceRun(s: string): (n: nat)
    ensures n <= |s|
    ensures n < |s| ==> !IsWhiteSpace(s[n])
  {
    if s != [] && IsWhiteSpace(s[0]) then 1 + WhiteSpaceRun(s[1..]) else 0
  }

  /** Number of leading decimal digits. */
  function DigitRun(s: string): (n: nat)
    ensures n <= |s|
    ensures n < |s| ==> !IsDigit(s[n])
  {
    if s != [] && IsDigit(s[0]) then 1 + DigitRun(s[1..]) else 0
  }

  /** The leading run is made of digits. */
  lemma {:induction false} DigitRunDigits(s: string)
    ensures AllDigits(s[..DigitRun(s)])
  {
    if s != [] && IsDigit(s[0]) {
      DigitRunDigits(s[1..]);
      assert s[..DigitRun(s)] == [s[0]] + s[1..][..DigitRun(s[1..])];
    }
  }

  function DigitValue(c: char): (d: nat)
    requires IsDigit(c)
    ensures d < 10
  {
    c as int - '0' as int
  }

  /** The natural number a run of digits denotes, most significant digit first. */
  function DigitsValue(ds: string): nat
    requires AllDigits(ds)
  {
    if ds == [] then 0 else DigitsValue(ds[..|ds| - 1]) * 10 + DigitValue(ds[|ds| - 1])
  }

  /** `x` times ten to the power `e`, one decimal place at a time. */
  function Scale(x: real, e: int): real
    decreases if e < 0 then -e else e
  {
    if e == 0 then x
    else if e > 0 then Scale(x, e - 1) * 10.0
    else Scale(x, e + 1) / 10.0
  }

  /** The exponent part at the head of `s` ("e", "E", optional sign, at least one digit):
      its value and its length, or length 0 when `s` does not start with one. */
  function ExponentPrefix(s: string): (r: (int, nat))
    ensures r.1 <= |s|
    ensures r.1 == 0 ==> r.0 == 0
  {
    if |s| == 0 || (s[0] != 'e' && s[0] != 'E') then (0, 0)
    else
      var signed := |s| > 1 && (s[1] == '+' || s[1] == '-');
      var start := if signed then 2 else 1;
      var n := DigitRun(s[start..]);
      if n == 0 then (0, 0)
      else
        DigitRunDigits(s[start..]);
        var v: int := DigitsValue(s[start..][..n]);
        (if signed && s[1] == '-' then -v else v, start + n)
  }

  /** The sign at the head of `s`: whether it is a minus, and how many characters it takes. */
  function SignPrefix(s: string): (r: (bool, nat))
    ensures r.1 <= 1 && r.1 <= |s|
    ensures r.0 ==> r.1 == 1
  {
    if |s| > 0 && s[0] == '-' then (true, 1)
    else if |s| > 0 && s[0] == '+' then (false, 1)
    else (false, 0)
  }

  /** The fraction at the head of `rest` (a point and the digits after it, possibly none):
      its digits and how many characters it takes, or nothing when `rest` does not start with a point. */
  function FractionPrefix(rest: string): (r: (string, nat))
    ensures AllDigits(r.0)
    ensures r.1 <= |rest|
    ensures r.1 == 0 ==> r.0 == []
  {
    if |rest| > 0 && rest[0] == '.' then
      var m := DigitRun(rest[1..]);
      DigitRunDigits(rest[1..]);
      (rest[1..][..m], 1 + m)
    else ([], 0)
  }

  /** The value of a whole part followed by `places` fraction digits worth `fraction`. */
  function Mantissa(whole: nat, fraction: nat, places: nat): real {
    whole as real + Scale(fraction as real, -(places as int))
  }

  /** The unsigned decimal literal at the head of `u`, read as far as it goes;
      it needs a digit before or after the point. */
  function UnsignedPrefix(u: string): Option<real> {
    var n := DigitRun(u);
    DigitRunDigits(u);
    var fraction := FractionPrefix(u[n..]);
    if n == 0 && fraction.0 == [] then None
    else
      var mantissa := Mantissa(DigitsValue(u[..n]), DigitsValue(fraction.0), |fraction.0|);
      Some(Scale(mantissa, ExponentPrefix(u[n + fraction.1..]).0))
  }

  /** `parseFloat(s)`: None stands for NaN. */
  function ParseFloat(s: string): Option<real> {
    var t := s[WhiteSpaceRun(s)..];
    var sign := SignPrefix(t);
    match UnsignedPrefix(t[sign.1..])
    case None => None
    case Some(x) => Some(if sign.0 then -x else x)
  }

  /** The string has a number at its head: after the white space and an optional sign
      comes a digit, or a point followed by a digit. */
  predicate StartsWithNumber(s: string) {
    var t := s[WhiteSpaceRun(s)..];
    var u := t[SignPrefix(t).1..];
    (|u| > 0 && IsDigit(u[0])) || (|u| > 1 && u[0] == '.' && IsDigit(u[1]))
  }

  /** parseFloat yields a number exactly when the string starts with one. */
  lemma ParseFloatDefined(s: string)
    ensures ParseFloat(s).Some? <==> StartsWithNumber(s)
  {
    var t := s[WhiteSpaceRun(s)..];
    var u := t[SignPrefix(t).1..];
    if |u| > 0 && u[0] == '.' {
      assert u[0..] == u;
      if |u| > 1 && IsDigit(u[1]) {
        assert DigitRun(u[1..]) > 0;
      } else {
        assert DigitRun(u[1..]) == 0;
      }
    }
  }

  /** The decimal numeral of a natural number, without leading zeros. */
  function Numeral(n: nat): (s: string)
    ensures |s| > 0 && AllDigits(s)
  {
    if n < 10 then [('0' as int + n) as char]
    else Numeral(n / 10) + [('0' as int + n % 10) as char]
  }

  lemma {:induction false} NumeralValue(n: nat)
    ensures DigitsValue(Numeral(n)) == n
  {
    if n >= 10 {
      var s := Numeral(n);
      assert s[..|s| - 1] == Numeral(n / 10);
      NumeralValue(n / 10);
    }
  }

  /** An integer literal with neither fraction nor exponent after it reads as its digits' value. */
  lemma UnsignedPrefixOfInteger(u: string, n: nat)
    requires 0 < n == DigitRun(u) && AllDigits(u[..n])
    requires FractionPrefix(u[n..]) == ([], 0)
    requires ExponentPrefix(u[n..]) == (0, 0)
    ensures UnsignedPrefix(u) == Some(DigitsValue(u[..n]) as real)
  {
    var whole := DigitsValue(u[..n]);
    assert DigitsValue([]) == 0;
    assert UnsignedPrefix(u) == Some(Scale(Mantissa(whole, 0, 0), 0));
    assert Mantissa(whole, 0, 0) == whole as real;
  }

  /** A run of digits followed by text that cannot continue a decimal literal reads as its integer value. */
  lemma IntegerPrefix(ds: string, t: string)
    requires |ds| > 0 && AllDigits(ds)
    requires t != [] ==> !IsDigit(t[0]) && t[0] != '.' && t[0] != 'e' && t[0] != 'E'
    ensures UnsignedPrefix(ds + t) == Some(DigitsValue(ds) as real)
  {
    var u := ds + t;
    DigitRunOfPrefix(ds, t);
    assert u[..|ds|] == ds;
    assert u[|ds|..] == t;
    UnsignedPrefixOfInteger(u, |ds|);
  }

  /** Text after a numeral that cannot continue a decimal literal is ignored ("23 C" reads as 23). */
  lemma ParseNumeralWithTrailingText(n: nat, t: string)
    requires t != [] ==> !IsDigit(t[0]) && t[0] != '.' && t[0] != 'e' && t[0] != 'E'
    ensures ParseFloat(Numeral(n) + t) == Some(n as real)
  {
    var w := Numeral(n) + t;
    assert !IsWhiteSpace(w[0]);
    assert WhiteSpaceRun(w) == 0;
    assert w[0..] == w;
    assert SignPrefix(w) == (false, 0);
    IntegerPrefix(Numeral(n), t);
    NumeralValue(n);
  }

  /** parseFloat reads back the decimal numeral of every natural number. */
  lemma ParseNumeral(n: nat)
    ensures ParseFloat(Numeral(n)) == Some(n as real)
  {
    ParseNumeralWithTrailingText(n, []);
    assert Numeral(n) + [] == Numeral(n);
  }

  /** A minus sign in front of a numeral negates the number read. */
  lemma ParseNegativeNumeral(n: nat)
    ensures ParseFloat("-" + Numeral(n)) == Some(-(n as real))
  {
    var s := Numeral(n);
    var w := "-" + s;
    assert WhiteSpaceRun(w) == 0;
    assert w[0..] == w;
    assert SignPrefix(w) == (true, 1);
    assert w[1..] == s + [];
    IntegerPrefix(s, []);
    NumeralValue(n);
  }

  lemma {:induction false} DigitRunOfPrefix(s: string, t: string)
    requires AllDigits(s)
    requires t != [] ==> !IsDigit(t[0])
    ensures DigitRun(s + t) == |s|
  {
    if s != [] {
      assert (s + t)[1..] == s[1..] + t;
      DigitRunOfPrefix(s[1..], t);
    }
  }
}
