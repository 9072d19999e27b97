/**
 * JavaScript's conversions between non-negative integers and their decimal
 * text: `String(n)` (as a template literal `${n}` renders it) and
 * `Number(s)` for a string of decimal digits.
 */
module Decimal {

  predicate IsDigit(c: char) {
    '0' <= c <= '9'
  }

  predicate AllDigits(s: string) {
    forall i :: 0 <= i < |s| ==> IsDigit(s[i])
  }

  function DigitChar(d: nat): (c: char)
    requires d < 10
    ensures IsDigit(c)
  {
    ('0' as int + d) as char
  }

  function DigitValue(c: char): (d: nat)
    requires IsDigit(c)
    ensures d < 10
  {
    c as int - '0' as int
  }

  /** `String(n)`: the digits of `n`, with no leading zero. */
  function ToDecimal(n: nat): (s: string)
    ensures |s| > 0 && AllDigits(s)
    ensures |s| > 1 ==> s[0] != '0'
    decreases n
  {
    if n < 10 then [DigitChar(n)] else ToDecimal(n / 10) + [DigitChar(n % 10)]
  }

  /** The number a string of decimal digits denotes (leading zeros allowed). */
  function Value(s: string): nat
    requires AllDigits(s)
    decreases |s|
  {
    if s == [] then 0 else Value(s[..|s| - 1]) * 10 + DigitValue(s[|s| - 1])
  }

  /** What `Number(s)` yields, for the strings this model interprets. */
  datatype NumberValue =
    | Integer(n: nat)
      /** Any other text: `NaN`, fractions, signs, exponents, white space. */
    | Unparsed(text: string)

  /** `Number(s)`: the empty string is 0, a digit string its value. */
  function NumberOf(s: string): (v: NumberValue)
    ensures s == "" ==> v == Integer(0)
    ensures v.Unparsed? <==> !AllDigits(s)
    ensures v.Unparsed? ==> v.text == s
  {
    if AllDigits(s) then Integer(Value(s)) else Unparsed(s)
  }

  /** Reading back what `String(n)` wrote gives `n`. */
  lemma {:induction false} ValueOfToDecimal(n: nat)
    ensures Value(ToDecimal(n)) == n
    decreases n
  {
    if n >= 10 {
      var prefix := ToDecimal(n / 10);
      var s := prefix + [DigitChar(n % 10)];
      assert s[..|s| - 1] == prefix;
      ValueOfToDecimal(n / 10);
    }
  }

  /** `Number(String(n)) == n` for every non-negative integer, read as an exact natural. */
  lemma NumberOfToDecimal(n: nat)
    ensures NumberOf(ToDecimal(n)) == Integer(n)
  {
    ValueOfToDecimal(n);
  }
}
