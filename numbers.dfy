/**
 * JavaScript's `Number(s)` on the decimal strings a number input produces,
 * with values as exact reals: `NaN`, or a finite value.
 */
module Numbers {

  datatype Num = NaN | Finite(value: real)

  /** A JavaScript number is truthy unless it is `NaN` or zero. */
  predicate TruthyNum(n: Num) {
    n.Finite? && n.value != 0.0
  }

  /** `n * 100`: `NaN` stays `NaN`. */
  function Times100(n: Num): (r: Num)
    ensures r.NaN? <==> n.NaN?
    ensures n.Finite? ==> r.value == 100.0 * n.value
  {
    match n
    case NaN => NaN
    case Finite(v) => Finite(v * 100.0)
  }

  predicate IsDigit(c: char) {
    '0' <= c <= '9'
  }

  predicate AllDigits(s: string) {
    forall i :: 0 <= i < |s| ==> IsDigit(s[i])
  }

  function DigitValue(c: char): (d: nat)
    requires IsDigit(c)
    ensures d < 10
  {
    c as int - '0' as int
  }

  function DigitChar(d: nat): (c: char)
    requires d < 10
    ensures IsDigit(c) && DigitValue(c) == d
  {
    ('0' as int + d) as char
  }

  /** The value of a string of decimal digits, most significant first. */
  function DigitsValue(s: string): nat
    requires AllDigits(s)
    decreases |s|
  {
    if s == [] then 0 else DigitsValue(s[..|s| - 1]) * 10 + DigitValue(s[|s| - 1])
  }

  function Pow10(k: nat): (p: nat)
    ensures p >= 1
  {
    if k == 0 then 1 else 10 * Pow10(k - 1)
  }

  /** Number of decimal digits at the start of `s`. */
  function LeadingDigits(s: string): (k: nat)
    ensures k <= |s|
    ensures AllDigits(s[..k])
    ensures k < |s| ==> !IsDigit(s[k])
  {
    if s == [] || !IsDigit(s[0]) then 0 else 1 + LeadingDigits(s[1..])
  }

  /** The value of `whole.fraction`, both parts strings of decimal digits. */
  function DecimalValue(whole: string, fraction: string): (v: real)
    requires AllDigits(whole) && AllDigits(fraction)
    ensures v >= 0.0
    ensures fraction == "" ==> v == DigitsValue(whole) as real
  {
    DigitsValue(whole) as real + DigitsValue(fraction) as real / Pow10(|fraction|) as real
  }

  /**
   * `Number(s)` for the empty string (zero) and for an optional sign, digits,
   * and an optional fraction after `.`, with at least one digit in all.
   * Everything else reads as `NaN` here.
   */
  function ToNumber(s: string): (n: Num)
    ensures s == "" ==> n == Finite(0.0)
    ensures s != "" && AllDigits(s) ==> n == Finite(DigitsValue(s) as real)
    ensures s != "" && s[0] == '-' && n.Finite? ==> n.value <= 0.0
  {
    if s == "" then Finite(0.0)
    else
      var negative := s[0] == '-';
      var unsigned := if s[0] == '-' || s[0] == '+' then s[1..] else s;
      var k := LeadingDigits(unsigned);
      assert AllDigits(s) ==> unsigned == s && k == |s| && unsigned[..k] == s;
      var rest := unsigned[k..];
      if rest == [] && k > 0 then
        var v := DecimalValue(unsigned[..k], "");
        Finite(if negative then -v else v)
      else if |rest| > 0 && rest[0] == '.' && AllDigits(rest[1..]) && (k > 0 || |rest| > 1) then
        var v := DecimalValue(unsigned[..k], rest[1..]);
        Finite(if negative then -v else v)
      else NaN
  }

  /** The digits at the front of `a + rest` are exactly those of `a` when `rest` does not start with one. */
  lemma {:induction false} LeadingDigitsPrefix(a: string, rest: string)
    requires AllDigits(a)
    requires rest == [] || !IsDigit(rest[0])
    ensures LeadingDigits(a + rest) == |a|
    decreases |a|
  {
    if a != [] {
      assert (a + rest)[1..] == a[1..] + rest;
      LeadingDigitsPrefix(a[1..], rest);
    } else {
      assert a + rest == rest;
    }
  }

  /** A decimal fraction `whole.fraction` (one side may be empty, not both) reads as its exact value. */
  lemma ToNumberDecimal(whole: string, fraction: string)
    requires AllDigits(whole) && AllDigits(fraction)
    requires |whole| > 0 || |fraction| > 0
    ensures ToNumber(whole + "." + fraction) == Finite(DecimalValue(whole, fraction))
  {
    var s := whole + "." + fraction;
    LeadingDigitsPrefix(whole, "." + fraction);
    assert s == whole + ("." + fraction);
    assert s[0] != '-' && s[0] != '+' by {
      if |whole| > 0 { assert s[0] == whole[0]; } else { assert s[0] == '.'; }
    }
    assert s[..|whole|] == whole;
    assert s[|whole|..] == "." + fraction;
    assert s[|whole|..][1..] == fraction;
  }

  /** A leading `-` negates the value of the unsigned rest; `NaN` stays `NaN`. */
  lemma ToNumberNegated(u: string)
    requires u != "" && u[0] != '-' && u[0] != '+'
    ensures ToNumber("-" + u) == match ToNumber(u) { case NaN => NaN case Finite(v) => Finite(-v) }
  {
    assert ("-" + u)[1..] == u;
  }

  /** A leading `+` changes nothing. */
  lemma ToNumberPlus(u: string)
    requires u != "" && u[0] != '-' && u[0] != '+'
    ensures ToNumber("+" + u) == ToNumber(u)
  {
    assert ("+" + u)[1..] == u;
  }

  /** The decimal rendering of a natural number, as a number input holds it. */
  function ShowNat(n: nat): (s: string)
    ensures s != "" && AllDigits(s)
  {
    if n < 10 then [DigitChar(n)] else ShowNat(n / 10) + [DigitChar(n % 10)]
  }

  lemma {:induction false} DigitsValueShowNat(n: nat)
    ensures DigitsValue(ShowNat(n)) == n
  {
    var s := ShowNat(n);
    if n >= 10 {
      DigitsValueShowNat(n / 10);
      assert s[..|s| - 1] == ShowNat(n / 10);
    }
  }

  /** Reading back the rendering of a natural number gives that number. */
  lemma ToNumberShowNat(n: nat)
    ensures ToNumber(ShowNat(n)) == Finite(n as real)
  {
    DigitsValueShowNat(n);
  }
}
