/** Python's `int(str)` and `float(str)` on ASCII decimal literals, as partial parses:
    `None` is the `ValueError` the conversion raises. */
module Numbers {
  import opened Wrappers
  import opened Strings

  /** A Python `int` or `float` value; floats are modelled as exact reals. */
  datatype Number = IntNum(i: int) | FloatNum(r: real)

  /** The number's mathematical value, which is what Python's mixed `int`/`float`
      comparisons and `==` use. */
  function ToReal(n: Number): real {
    match n
    case IntNum(i) => i as real
    case FloatNum(r) => r
  }

  predicate AllDigits(s: string) {
    forall i | 0 <= i < |s| :: IsDigit(s[i])
  }

  function DigitValue(c: char): nat
    requires IsDigit(c)
  {
    c as int - '0' as int
  }

  /** The value of a string of decimal digits, most significant first. */
  function DigitsValue(s: string): nat
    requires AllDigits(s)
    decreases |s|
  {
    if s == [] then 0 else DigitsValue(s[..|s| - 1]) * 10 + DigitValue(s[|s| - 1])
  }

  /** The value of the digits after a decimal point. */
  function FractionValue(s: string): real
    requires AllDigits(s)
    decreases |s|
  {
    if s == [] then 0.0 else (DigitValue(s[0]) as real + FractionValue(s[1..])) / 10.0
  }

  predicate IsSign(c: char) {
    c == '-' || c == '+'
  }

  /** Splits an optional leading sign off a literal: the sign's factor and the rest. */
  function SplitSign(t: string): (r: (int, string))
    ensures r.0 == 1 || r.0 == -1
    ensures |r.1| <= |t|
  {
    if t != [] && IsSign(t[0]) then (if t[0] == '-' then -1 else 1, t[1..]) else (1, t)
  }

  /** `int(s)`: surrounding whitespace, an optional sign, then one or more ASCII digits. */
  function ParseInt(s: string): (r: Option<int>)
    ensures r.Some? ==> Strip(s) != []
  {
    var (sign, d) := SplitSign(Strip(s));
    if d != [] && AllDigits(d) then Some(if sign < 0 then -(DigitsValue(d) as int) else DigitsValue(d)) else None
  }

  /** `float(s)`: surrounding whitespace, an optional sign, digits with at most one '.',
      and at least one digit on one side of it. */
  function ParseFloat(s: string): (r: Option<real>)
    ensures r.Some? ==> Strip(s) != []
  {
    var (sign, m) := SplitSign(Strip(s));
    var k := Find(m, '.');
    var whole := m[..k];
    var frac := if k < |m| then m[k + 1..] else [];
    if AllDigits(whole) && AllDigits(frac) && (whole != [] || frac != []) then
      var magnitude := DigitsValue(whole) as real + FractionValue(frac);
      Some(if sign < 0 then -magnitude else magnitude)
    else None
  }

  /** Decimal digits of a natural number, as `str()` writes it. */
  function NatToString(n: nat): (r: string)
    ensures r != [] && AllDigits(r)
    decreases n
  {
    if n < 10 then [('0' as int + n) as char] else NatToString(n / 10) + [('0' as int + n % 10) as char]
  }

  /** `str(n)` for an `int`. */
  function IntToString(n: int): (r: string)
    ensures r != []
  {
    if n < 0 then "-" + NatToString(-n) else NatToString(n)
  }

  lemma {:induction false} NatToStringValue(n: nat)
    ensures DigitsValue(NatToString(n)) == n
    decreases n
  {
    var r := NatToString(n);
    if n >= 10 {
      NatToStringValue(n / 10);
      assert r[..|r| - 1] == NatToString(n / 10);
    }
  }

  /** `int(str(n)) == n`. */
  lemma IntRoundTrip(n: int)
    ensures ParseInt(IntToString(n)) == Some(n)
  {
    var m: nat := if n < 0 then -n else n;
    NatToStringValue(m);
    IntStringSplits(n);
  }

  /** `str(n)` needs no stripping and splits into its sign and the digits of `abs(n)`. */
  lemma IntStringSplits(n: int)
    ensures SplitSign(Strip(IntToString(n))) == (if n < 0 then -1 else 1, NatToString(if n < 0 then -n else n))
  {
    var s := IntToString(n);
    assert !IsSpace(s[0]) && !IsSpace(s[|s| - 1]);
    StripOfStripped(s);
    if n < 0 {
      assert s[1..] == NatToString(-n);
    }
  }

  /** A literal `int()` accepts is accepted by `float()` with the same value. */
  lemma IntLiteralIsFloat(s: string)
    requires ParseInt(s).Some?
    ensures ParseFloat(s) == Some(ParseInt(s).value as real)
  {
    var (sign, m) := SplitSign(Strip(s));
    var k := Find(m, '.');
    assert k == |m|;
    assert m[..k] == m;
  }
}
