/**
 * JavaScript's `Number(text)` conversion, restricted to the inputs a report
 * line number can take: surrounding white space is ignored, empty text is 0,
 * an optionally signed run of decimal digits is its integer value, and any
 * other text is NaN.
 */
module JsNumber {
  import opened JsString

  /** A JavaScript number as far as the model needs one. */
  datatype Number = Num(value: int) | NaN {

    /** JavaScript truthiness: 0 and NaN are falsy, every other number truthy. */
    predicate Truthy() {
      Num? && value != 0
    }
  }

  predicate IsDigit(c: char) {
    '0' <= c <= '9'
  }

  /** A non-empty run of decimal digits. */
  predicate IsDigits(s: string) {
    |s| > 0 && forall i :: 0 <= i < |s| ==> IsDigit(s[i])
  }

  function DigitValue(c: char): (d: nat)
    requires IsDigit(c)
    ensures d < 10
  {
    (c as int) - ('0' as int)
  }

  function DigitChar(d: nat): (c: char)
    requires d < 10
    ensures IsDigit(c) && DigitValue(c) == d
  {
    ('0' as int + d) as char
  }

  /** The value of a string of decimal digits, most significant first. */
  function DigitsValue(s: string): nat
    requires forall i :: 0 <= i < |s| ==> IsDigit(s[i])
    decreases |s|
  {
    if |s| == 0 then 0 else DigitsValue(s[..|s| - 1]) * 10 + DigitValue(s[|s| - 1])
  }

  /** `String(n)` for a natural number: its shortest decimal spelling. */
  function Decimal(n: nat): (s: string)
    ensures IsDigits(s)
    ensures s[0] == '0' ==> n == 0
    decreases n
  {
    if n < 10 then [DigitChar(n)] else Decimal(n / 10) + [DigitChar(n % 10)]
  }

  /** `Number(s)`. */
  function ToNumber(s: string): Number {
    var t := Trim(s);
    if t == "" then Num(0)
    else if IsDigits(t) then Num(DigitsValue(t))
    else if t[0] == '-' && IsDigits(t[1..]) then Num(-(DigitsValue(t[1..]) as int))
    else if t[0] == '+' && IsDigits(t[1..]) then Num(DigitsValue(t[1..]))
    else NaN
  }

  /** White space alone reads as 0, an unsigned run of digits as a natural
      number, and only text that is neither blank nor an optionally signed
      run of digits reads as NaN. */
  lemma {:induction false} ToNumberMeaning(s: string)
    ensures AllWhitespace(s) ==> ToNumber(s) == Num(0)
    ensures IsDigits(Trim(s)) ==> ToNumber(s).Num? && ToNumber(s).value >= 0
    ensures ToNumber(s).NaN? <==>
      && !AllWhitespace(s)
      && !IsDigits(Trim(s))
      && !(Trim(s)[0] in "+-" && IsDigits(Trim(s)[1..]))
  {
  }

  /** Reading a decimal spelling back gives the number spelt. */
  lemma {:induction false} DecimalValue(n: nat)
    ensures DigitsValue(Decimal(n)) == n
    decreases n
  {
    if n >= 10 {
      var s := Decimal(n);
      assert s[..|s| - 1] == Decimal(n / 10);
      DecimalValue(n / 10);
    }
  }

  /** `Number(String(n)) == n`, also with a minus sign in front. */
  lemma {:induction false} ToNumberDecimal(n: nat)
    ensures ToNumber(Decimal(n)) == Num(n)
    ensures ToNumber("-" + Decimal(n)) == Num(-(n as int))
  {
    var s := Decimal(n);
    DecimalValue(n);
    TrimUnpadded(s);
    var m := "-" + s;
    TrimUnpadded(m);
    assert m[1..] == s;
  }

  /** A line number is truthy exactly when it is a non-zero integer. */
  lemma {:induction false} TruthyDecimal(n: nat)
    ensures ToNumber(Decimal(n)).Truthy() <==> n != 0
  {
    ToNumberDecimal(n);
  }
}
