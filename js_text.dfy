/** How the relay's JavaScript turns values into text: truthiness and the
    `||` fallback on request fields, `${v}` on a possibly-undefined string,
    and the decimal form of an integer (the year in each footer). */
module JsText {
  import opened Wrappers

  /** JavaScript truthiness of a string-or-undefined value: `undefined` and
      the empty string are falsy, every other string is truthy. */
  predicate Truthy(v: Option<string>) {
    v.Some? && v.value != ""
  }

  /** The value of `a || b` when both are strings or undefined. */
  function Or(a: Option<string>, b: Option<string>): (r: Option<string>)
    ensures Truthy(r) <==> Truthy(a) || Truthy(b)
    ensures Truthy(a) ==> r == a
    ensures !Truthy(a) ==> r == b
  {
    if Truthy(a) then a else b
  }

  /** `a || "literal"`: with a non-empty literal fallback the result is
      always a string. */
  function OrElse(a: Option<string>, fallback: string): (r: string)
    requires fallback != ""
    ensures Truthy(Some(r))
    ensures Truthy(a) ==> r == a.value
    ensures !Truthy(a) ==> r == fallback
  {
    match Or(a, Some(fallback))
    case Some(s) => s
    case None => fallback
  }

  /** `${v}` inside a template literal: a string is inserted as it is,
      `undefined` as the text "undefined". */
  function Show(v: Option<string>): string {
    match v
    case Some(s) => s
    case None => "undefined"
  }

  predicate IsDigit(c: char) {
    '0' <= c <= '9'
  }

  predicate AllDigits(s: string) {
    forall i | 0 <= i < |s| :: IsDigit(s[i])
  }

  function DigitChar(d: nat): (c: char)
    requires d < 10
    ensures IsDigit(c)
  {
    ('0' as int + d) as char
  }

  function DigitValue(c: char): (d: nat)
    requires IsDigit(c)
    ensures d < 10
  {
    c as int - '0' as int
  }

  /** Decimal digits of a natural number, most significant first. */
  function NatToDecimal(n: nat): (r: string)
    ensures |r| >= 1 && AllDigits(r)
    ensures r[0] == '0' ==> n == 0
    ensures (n < 10) == (|r| == 1)
    decreases n
  {
    if n < 10 then [DigitChar(n)]
    else NatToDecimal(n / 10) + [DigitChar(n % 10)]
  }

  /** The number a string of decimal digits denotes (the reference reading
      against which NatToDecimal is checked). */
  function DecimalValue(s: string): nat
    requires AllDigits(s)
  {
    if s == [] then 0
    else DecimalValue(s[..|s| - 1]) * 10 + DigitValue(s[|s| - 1])
  }

  /** Reading back the decimal form gives the number. */
  lemma {:induction false} NatToDecimalRoundTrip(n: nat)
    ensures DecimalValue(NatToDecimal(n)) == n
  {
    var r := NatToDecimal(n);
    if n >= 10 {
      NatToDecimalRoundTrip(n / 10);
      assert r[..|r| - 1] == NatToDecimal(n / 10);
    }
  }

  /** `${n}` for an integer number (ECMAScript's Number::toString for an
      integer below 10^21 in magnitude): a minus sign for a negative value,
      then the decimal digits of its magnitude. */
  function NumberToString(n: int): (r: string)
    ensures r != []
    ensures (r[0] == '-') == (n < 0)
    ensures AllDigits(if n < 0 then r[1..] else r)
  {
    if n < 0 then "-" + NatToDecimal(-n) else NatToDecimal(n)
  }

  /** Reading an optionally signed decimal numeral. */
  function IntegerValue(s: string): int
    requires s != [] && AllDigits(if s[0] == '-' then s[1..] else s)
  {
    if s[0] == '-' then 0 - DecimalValue(s[1..]) as int else DecimalValue(s)
  }

  /** A minus sign before a digit string negates its value. */
  lemma SignedReading(d: string)
    requires d != [] && AllDigits(d)
    ensures IntegerValue("-" + d) == 0 - DecimalValue(d) as int
    ensures IntegerValue(d) == DecimalValue(d)
  {
    assert ("-" + d)[1..] == d;
  }

  /** The rendered year reads back as the year: rendering loses nothing. */
  lemma NumberToStringRoundTrip(n: int)
    ensures IntegerValue(NumberToString(n)) == n
  {
    var m: nat := if n < 0 then -n else n;
    NatToDecimalRoundTrip(m);
    SignedReading(NatToDecimal(m));
  }

  /** Distinct years render differently. */
  lemma NumberToStringInjective(m: int, n: int)
    requires NumberToString(m) == NumberToString(n)
    ensures m == n
  {
    NumberToStringRoundTrip(m);
    NumberToStringRoundTrip(n);
  }
}
