/** JavaScript numbers as the card generator uses them, and their decimal
    strings.  Every number in the generator is an integer, except that
    `parseInt` yields NaN on a character that is not a decimal digit; NaN
    then absorbs every arithmetic operation and fails every comparison. */
module JsNumber {

  /** A JavaScript number restricted to the values the generator produces. */
  datatype Num = Int(value: int) | NaN

  /** `a + b`; NaN is absorbing. */
  function Add(a: Num, b: Num): Num {
    if a.Int? && b.Int? then Int(a.value + b.value) else NaN
  }

  /** `a - b`; NaN is absorbing. */
  function Sub(a: Num, b: Num): Num {
    if a.Int? && b.Int? then Int(a.value - b.value) else NaN
  }

  /** `a * b`; NaN is absorbing. */
  function Mul(a: Num, b: Num): Num {
    if a.Int? && b.Int? then Int(a.value * b.value) else NaN
  }

  /** `a < b`; false whenever either side is NaN. */
  predicate Less(a: Num, b: Num) {
    a.Int? && b.Int? && a.value < b.value
  }

  /** `a > b`; false whenever either side is NaN. */
  predicate Greater(a: Num, b: Num) {
    a.Int? && b.Int? && a.value > b.value
  }

  /** `a % m === 0`.  JavaScript's `%` truncates toward zero, but a
      truncated remainder is zero exactly when the Euclidean one is, so
      Dafny's `%` decides the same question.  NaN % m is NaN, never 0. */
  predicate RemainderIsZero(a: Num, m: int)
    requires m != 0
  {
    a.Int? && a.value % m == 0
  }

  /** A decimal digit value, what `Math.floor(Math.random() * 10)` yields. */
  type Digit = d: int | 0 <= d <= 9

  predicate IsDigitChar(c: char) {
    '0' <= c <= '9'
  }

  predicate IsDigits(s: string) {
    forall i :: 0 <= i < |s| ==> IsDigitChar(s[i])
  }

  function DigitValue(c: char): (d: Digit)
    requires IsDigitChar(c)
  {
    c as int - '0' as int
  }

  /** `String(d)` for a single digit. */
  function DigitChar(d: Digit): (c: char)
    ensures IsDigitChar(c) && DigitValue(c) == d
  {
    ('0' as int + d) as char
  }

  /** `parseInt(c)` on a one-character string: the digit's value, or NaN
      for any character that is not a decimal digit. */
  function ParseDigit(c: char): (r: Num)
    ensures r.Int? <==> IsDigitChar(c)
    ensures r.Int? ==> 0 <= r.value <= 9 && DigitChar(r.value) == c
  {
    if IsDigitChar(c) then Int(DigitValue(c)) else NaN
  }

  /** The number a string of decimal digits denotes. */
  function DecimalValue(s: string): nat
    requires IsDigits(s)
  {
    if s == [] then 0 else 10 * DecimalValue(s[..|s| - 1]) + DigitValue(s[|s| - 1])
  }

  /** `String(n)` for a non-negative integer: its shortest decimal form. */
  function NatToString(n: nat): (s: string)
    ensures IsDigits(s) && |s| >= 1
    ensures DecimalValue(s) == n
    ensures |s| == 1 || s[0] != '0'
    decreases n
  {
    if n < 10 then
      [DigitChar(n)]
    else
      var p := NatToString(n / 10);
      assert (p + [DigitChar(n % 10)])[..|p|] == p;
      p + [DigitChar(n % 10)]
  }

  /** The decimal form of a four-digit number has four characters. */
  lemma FourDigits(n: nat)
    requires 1000 <= n <= 9999
    ensures |NatToString(n)| == 4
  {
    var h, t, u := n / 10, n / 100, n / 1000;
    assert t == h / 10 && u == t / 10;
    assert |NatToString(u)| == 1;
    assert |NatToString(t)| == 2;
    assert |NatToString(h)| == 3;
  }
}
