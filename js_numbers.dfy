/**
 * JavaScript numbers as the client uses them: identifiers, season numbers and
 * page numbers are integral, or NaN when `parseInt` finds no digits.
 * Truthiness (`!!x`) and `Number.prototype.toString` for such values.
 */
module JsNumbers {

  /** An integral JavaScript number, or NaN. (-0 behaves as 0 everywhere here.) */
  datatype JsNumber = Num(value: int) | NaN

  /** `!!x`: zero and NaN are falsy, every other number is truthy. */
  predicate Truthy(x: JsNumber) {
    x.Num? && x.value != 0
  }

  predicate IsDigit(c: char) {
    '0' <= c <= '9'
  }

  predicate AllDigits(s: string) {
    forall i | 0 <= i < |s| :: IsDigit(s[i])
  }

  function DigitChar(d: int): (c: char)
    requires 0 <= d < 10
    ensures IsDigit(c)
  {
    ('0' as int + d) as char
  }

  function DigitValue(c: char): (d: nat)
    requires IsDigit(c)
    ensures d < 10
  {
    c as int - '0' as int
  }

  /** Decimal numeral of a natural number, most significant digit first, no leading zeros. */
  function NatToString(n: nat): (s: string)
    ensures |s| >= 1 && AllDigits(s)
    ensures s[0] == '0' ==> n == 0
  {
    if n < 10 then [DigitChar(n)] else NatToString(n / 10) + [DigitChar(n % 10)]
  }

  /** The value a string of decimal digits denotes. */
  function DigitsValue(s: string): nat
    requires AllDigits(s)
  {
    if s == [] then 0 else DigitsValue(s[..|s| - 1]) * 10 + DigitValue(s[|s| - 1])
  }

  lemma {:induction false} NatToStringRoundTrip(n: nat)
    ensures DigitsValue(NatToString(n)) == n
  {
    if n >= 10 {
      var s := NatToString(n);
      assert s[..|s| - 1] == NatToString(n / 10);
      NatToStringRoundTrip(n / 10);
    }
  }

  /** `n.toString()` for an integral number: a leading '-' exactly for negatives. */
  function IntToString(n: int): (s: string)
    ensures |s| >= 1
    ensures s[0] == '-' <==> n < 0
    ensures forall i | 0 <= i < |s| :: IsDigit(s[i]) || s[i] == '-'
  {
    if n < 0 then "-" + NatToString(-n) else NatToString(n)
  }

  /** `x.toString()`, also for NaN. */
  function ToString(x: JsNumber): (s: string)
    ensures |s| >= 1
    ensures forall i | 0 <= i < |s| :: NumeralChar(s[i])
  {
    match x
    case NaN => "NaN"
    case Num(n) => IntToString(n)
  }

  /** The characters a rendered number can contain; none of them is '/' or '?'. */
  predicate NumeralChar(c: char) {
    IsDigit(c) || c == '-' || c == 'N' || c == 'a'
  }

  lemma {:induction false} IntToStringInjective(m: int, n: int)
    requires IntToString(m) == IntToString(n)
    ensures m == n
  {
    if m < 0 {
      assert n < 0;
      var s := IntToString(m);
      assert s[1..] == NatToString(-m) && s[1..] == NatToString(-n);
      NatToStringRoundTrip(-m);
      NatToStringRoundTrip(-n);
    } else {
      NatToStringRoundTrip(m);
      NatToStringRoundTrip(n);
    }
  }

  /** Distinct numbers render differently: the rendering identifies the number. */
  lemma {:induction false} ToStringInjective(x: JsNumber, y: JsNumber)
    requires ToString(x) == ToString(y)
    ensures x == y
  {
    if x.Num? && y.Num? {
      IntToStringInjective(x.value, y.value);
    }
  }
}
