/** The Luhn (mod 10) check-digit test of ISO/IEC 7812-1, Annex B, as the
    generator's `luhnCheck` computes it. */
module Luhn {
  import opened JsNumber

  /** What one digit adds to the sum: the digit itself, or, on a doubled
      position, twice the digit with 9 taken off when that exceeds 9. */
  function Contribution(d: Digit, double: bool): (r: Digit)
    ensures !double ==> r == d
    ensures double ==> r == 2 * d || r == 2 * d - 9
  {
    if double then (if 2 * d > 9 then 2 * d - 9 else 2 * d) else d
  }

  /** The sum over `s` scanned from the right, where `double` says whether
      the rightmost digit of `s` is doubled and doubling alternates leftwards. */
  function SumFrom(s: string, double: bool): (r: int)
    requires IsDigits(s)
    ensures 0 <= r <= 9 * |s|
    decreases |s|
  {
    if s == [] then 0
    else Contribution(DigitValue(s[|s| - 1]), double) + SumFrom(s[..|s| - 1], !double)
  }

  /** The Luhn sum of a digit string: the rightmost digit is not doubled. */
  function LuhnSum(s: string): int
    requires IsDigits(s)
  {
    SumFrom(s, false)
  }

  /** The strings `luhnCheck` accepts. */
  predicate LuhnValid(s: string) {
    IsDigits(s) && LuhnSum(s) % 10 == 0
  }

  /** Splitting a string: the left part's rightmost digit is doubled
      exactly when an odd number of digits stand to its right. */
  lemma {:induction false} SumFromConcat(a: string, b: string, double: bool)
    requires IsDigits(a) && IsDigits(b)
    ensures IsDigits(a + b)
    ensures SumFrom(a + b, double) == SumFrom(b, double) + SumFrom(a, double != (|b| % 2 == 1))
    decreases |b|
  {
    if b == [] {
      assert a + b == a;
    } else {
      var b' := b[..|b| - 1];
      assert (a + b)[..|a + b| - 1] == a + b';
      assert (a + b)[|a + b| - 1] == b[|b| - 1];
      SumFromConcat(a, b', !double);
    }
  }

  /** Adding a digit on the left adds its contribution, doubled exactly
      when an odd number of digits stand to its right. */
  lemma LuhnSumCons(c: char, t: string)
    requires IsDigitChar(c) && IsDigits(t)
    ensures IsDigits([c] + t)
    ensures LuhnSum([c] + t) == LuhnSum(t) + Contribution(DigitValue(c), |t| % 2 == 1)
  {
    SumFromConcat([c], t, false);
    assert [c][..0] == [];
  }

  /** `luhnCheck(num)`: scans `num` right to left with a toggling flag.  A
      character that is not a digit parses as NaN, which poisons the sum,
      so such a string is rejected. */
  method LuhnCheck(num: string) returns (valid: bool)
    ensures valid <==> LuhnValid(num)
  {
    var sum := Int(0);
    var shouldDouble := false;
    var i := |num| - 1;
    while i >= 0
      invariant -1 <= i < |num|
      invariant shouldDouble <==> (|num| - 1 - i) % 2 == 1
      invariant sum.Int? <==> IsDigits(num[i + 1..])
      invariant sum.Int? ==> sum.value == LuhnSum(num[i + 1..])
    {
      var digit := ParseDigit(num[i]);
      if shouldDouble {
        digit := Mul(digit, Int(2));
        if Greater(digit, Int(9)) {
          digit := Sub(digit, Int(9));
        }
      }
      assert num[i..] == [num[i]] + num[i + 1..];
      if sum.Int? && digit.Int? {
        LuhnSumCons(num[i], num[i + 1..]);
      } else if !IsDigitChar(num[i]) {
        assert !IsDigitChar(num[i..][0]);
      } else {
        var k :| 0 <= k < |num[i + 1..]| && !IsDigitChar(num[i + 1..][k]);
        assert !IsDigitChar(num[i..][k + 1]);
      }
      sum := Add(sum, digit);
      shouldDouble := !shouldDouble;
      i := i - 1;
    }
    assert num[0..] == num;
    valid := RemainderIsZero(sum, 10);
  }

  /** Reference definition: each digit's doubling is decided by its own
      distance from the right end (odd distance: doubled). */
  function PositionalSum(s: string): int
    requires IsDigits(s)
  {
    if s == [] then 0
    else Contribution(DigitValue(s[0]), (|s| - 1) % 2 == 1) + PositionalSum(s[1..])
  }

  /** The alternating right-to-left scan and the positional rule agree. */
  lemma {:induction false} LuhnSumIsPositional(s: string)
    requires IsDigits(s)
    ensures LuhnSum(s) == PositionalSum(s)
    decreases |s|
  {
    if s != [] {
      assert s == [s[0]] + s[1..];
      LuhnSumCons(s[0], s[1..]);
      LuhnSumIsPositional(s[1..]);
    }
  }

  /** The empty string and "0" sum to 0 and are accepted. */
  lemma EmptyAndZeroAreValid()
    ensures LuhnValid("")
    ensures LuhnValid("0")
  {
  }

  /** Appending a digit on the right: it is the rightmost digit now. */
  lemma SumFromSnoc(p: string, c: char, double: bool)
    requires IsDigits(p) && IsDigitChar(c)
    ensures IsDigits(p + [c])
    ensures SumFrom(p + [c], double) == Contribution(DigitValue(c), double) + SumFrom(p, !double)
  {
  }

  /** The first fifteen digits shared by the two vectors below; their
      rightmost digit is doubled once a check digit follows. */
  lemma VectorPrefixSum()
    ensures IsDigits("453201511283036")
    ensures SumFrom("453201511283036", true) == 44
  {
    var s: string := [];
    SumFromSnoc(s, '4', true);
    s := s + ['4'];
    SumFromSnoc(s, '5', false);
    s := s + ['5'];
    SumFromSnoc(s, '3', true);
    s := s + ['3'];
    SumFromSnoc(s, '2', false);
    s := s + ['2'];
    SumFromSnoc(s, '0', true);
    s := s + ['0'];
    SumFromSnoc(s, '1', false);
    s := s + ['1'];
    SumFromSnoc(s, '5', true);
    s := s + ['5'];
    SumFromSnoc(s, '1', false);
    s := s + ['1'];
    SumFromSnoc(s, '1', true);
    s := s + ['1'];
    SumFromSnoc(s, '2', false);
    s := s + ['2'];
    SumFromSnoc(s, '8', true);
    s := s + ['8'];
    SumFromSnoc(s, '3', false);
    s := s + ['3'];
    SumFromSnoc(s, '0', true);
    s := s + ['0'];
    SumFromSnoc(s, '3', false);
    s := s + ['3'];
    SumFromSnoc(s, '6', true);
    s := s + ['6'];
    assert s == "453201511283036";
  }

  /** A published valid vector. */
  lemma KnownValidVector()
    ensures LuhnValid("4532015112830366")
  {
    VectorPrefixSum();
    SumFromSnoc("453201511283036", '6', false);
    assert "453201511283036" + ['6'] == "4532015112830366";
  }

  /** The same vector with its check digit changed. */
  lemma KnownInvalidVector()
    ensures !LuhnValid("4532015112830367")
  {
    VectorPrefixSum();
    SumFromSnoc("453201511283036", '7', false);
    assert "453201511283036" + ['7'] == "4532015112830367";
  }

  /** The digit that completes `p` to a Luhn-valid string. */
  function CheckDigit(p: string): Digit
    requires IsDigits(p)
  {
    (10 - SumFrom(p, true) % 10) % 10
  }

  /** Appending a digit to `p` gives a Luhn-valid string exactly when that
      digit is `CheckDigit(p)`: one completion in ten is accepted. */
  lemma CheckDigitCompletes(p: string, c: char)
    requires IsDigits(p) && IsDigitChar(c)
    ensures LuhnValid(p + [c]) <==> DigitValue(c) == CheckDigit(p)
  {
    SumFromSnoc(p, c, false);
  }

  /** Each contribution is a one-to-one function of the digit. */
  lemma ContributionInjective(d1: Digit, d2: Digit, double: bool)
    requires d1 != d2
    ensures Contribution(d1, double) != Contribution(d2, double)
  {
  }

  /** Changing any one digit of a Luhn-valid string to another digit gives
      a string the check rejects. */
  lemma DetectsSingleDigitError(s: string, t: string, k: int)
    requires LuhnValid(s) && IsDigits(t) && |s| == |t|
    requires 0 <= k < |s| && s[k] != t[k]
    requires forall j :: 0 <= j < |s| && j != k ==> s[j] == t[j]
    ensures !LuhnValid(t)
  {
    var a, c := s[..k], s[k + 1..];
    assert t[..k] == a && t[k + 1..] == c;
    var double := (|c| % 2 == 1);
    var u := SumSplitAt(s, k);
    var v := SumSplitAt(t, k);
    ContributionInjective(DigitValue(s[k]), DigitValue(t[k]), double);
    var x, y := Contribution(DigitValue(s[k]), double), Contribution(DigitValue(t[k]), double);
    assert LuhnSum(s) == u + x && LuhnSum(t) == u + y;
    RemaindersDiffer(u, x, y);
  }

  /** Two different digits added to the same sum cannot both reach a
      multiple of 10. */
  lemma RemaindersDiffer(u: int, x: Digit, y: Digit)
    requires x != y
    ensures (u + x) % 10 != 0 || (u + y) % 10 != 0
  {
    if (u + x) % 10 == 0 {
      var q := (u + x) / 10;
      assert u + y == 10 * q + (y - x);
    }
  }

  /** The sum of `s` is the contribution of `s[k]` plus a part that does
      not depend on `s[k]`. */
  lemma SumSplitAt(s: string, k: int) returns (rest: int)
    requires IsDigits(s) && 0 <= k < |s|
    ensures rest == SumFrom(s[k + 1..], false) + SumFrom(s[..k], |s[k + 1..]| % 2 == 0)
    ensures LuhnSum(s) == rest + Contribution(DigitValue(s[k]), |s[k + 1..]| % 2 == 1)
  {
    var a, c := s[..k], s[k + 1..];
    var double := (|c| % 2 == 1);
    assert s == (a + [s[k]]) + c;
    SumFromConcat(a + [s[k]], c, false);
    assert (a + [s[k]])[..|a|] == a;
    rest := SumFrom(c, false) + SumFrom(a, !double);
  }
}
