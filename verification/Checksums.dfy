/** The payment-card checksum of the PII scanner: Luhn (Annex B of ISO/IEC 7812-1), on ASCII digits. */
module Checksums {

  newtype Digit = d: int | 0 <= d < 10

  // ---- Luhn ----

  /** What a digit contributes at index `i` counted from the right. */
  function Weighted(d: Digit, i: nat): nat {
    if i % 2 == 0 then d as int
    else if 2 * (d as int) > 9 then 2 * (d as int) - 9 else 2 * (d as int)
  }

  /** The checksum total: the first digit sits at index `|ds| - 1` from the right. */
  function LuhnSum(ds: seq<Digit>): nat {
    if ds == [] then 0 else Weighted(ds[0], |ds| - 1) + LuhnSum(ds[1..])
  }

  function IsDigit(c: char): bool {
    '0' <= c <= '9'
  }

  function DigitOf(c: char): Digit
    requires IsDigit(c)
  {
    (c as int - '0' as int) as Digit
  }

  function Digits(value: string): seq<Digit> {
    if value == "" then []
    else if IsDigit(value[0]) then [DigitOf(value[0])] + Digits(value[1..])
    else Digits(value[1..])
  }

  predicate LuhnOk(value: string) {
    |Digits(value)| >= 13 && LuhnSum(Digits(value)) % 10 == 0
  }

  /** The source's loop: digits right to left, doubling every second one. */
  method CheckLuhn(value: string) returns (ok: bool)
    ensures ok == LuhnOk(value)
    ensures ok <==> |Digits(value)| >= 13 && LuhnSum(Digits(value)) % 10 == 0
  {
    var digits := Digits(value);
    if |digits| < 13 { return false; }
    var total := 0;
    for i := 0 to |digits|
      invariant total == LuhnSum(digits[|digits| - i..])
    {
      var d := digits[|digits| - 1 - i] as int;
      if i % 2 == 1 {
        d := d * 2;
        if d > 9 { d := d - 9; }
      }
      total := total + d;
    }
    ok := total % 10 == 0;
  }

  lemma {:induction false} LuhnPrefix(p: seq<Digit>, a: seq<Digit>, b: seq<Digit>)
    requires |a| == |b|
    ensures LuhnSum(p + a) - LuhnSum(p + b) == LuhnSum(a) - LuhnSum(b)
  {
    if p == [] {
      assert p + a == a && p + b == b;
    } else {
      assert (p + a)[1..] == p[1..] + a && (p + b)[1..] == p[1..] + b;
      LuhnPrefix(p[1..], a, b);
    }
  }

  /** Doubling permutes the digits, so a changed digit always changes the total modulo 10. */
  lemma {:induction false} WeightedInjective(x: Digit, y: Digit, i: nat)
    requires x != y
    ensures -10 < Weighted(x, i) - Weighted(y, i) < 10 && Weighted(x, i) != Weighted(y, i)
  {
  }

  /** Any single changed digit is detected, in a number of any length. */
  lemma {:induction false} LuhnDetectsSubstitution(p: seq<Digit>, x: Digit, y: Digit, s: seq<Digit>)
    requires x != y && LuhnSum(p + [x] + s) % 10 == 0
    ensures LuhnSum(p + [y] + s) % 10 != 0
  {
    assert p + [x] + s == p + ([x] + s) && p + [y] + s == p + ([y] + s);
    LuhnPrefix(p, [x] + s, [y] + s);
    HeadSum(x, s);
    HeadSum(y, s);
    WeightedInjective(x, y, |s|);
    SmallShift(LuhnSum(p + [x] + s), LuhnSum(p + [y] + s));
  }

  lemma {:induction false} SmallShift(a: int, b: int)
    requires a % 10 == 0 && -10 < a - b < 10 && a != b
    ensures b % 10 != 0
  {
  }

  lemma {:induction false} HeadSum(x: Digit, s: seq<Digit>)
    ensures LuhnSum([x] + s) == Weighted(x, |s|) + LuhnSum(s)
  {
    assert ([x] + s)[1..] == s;
  }

  /**
   The digit at an even distance from the right counts as it is, at an odd distance as the digit
   sum of its double.
   */
  lemma {:induction false} LuhnWeight(p: seq<Digit>, x: Digit, s: seq<Digit>)
    ensures LuhnSum(p + [x] + s) - LuhnSum(p + [0] + s) ==
            if |s| % 2 == 0 then x as int else (2 * x as int) / 10 + (2 * x as int) % 10
  {
    assert p + [x] + s == p + ([x] + s) && p + [0] + s == p + ([0] + s);
    LuhnPrefix(p, [x] + s, [0] + s);
    HeadSum(x, s);
    HeadSum(0, s);
  }

  lemma {:induction false} LuhnZeros(n: nat)
    ensures LuhnSum(seq(n, _ => 0 as Digit)) == 0
  {
    if n == 0 {
    } else {
      LuhnZeros(n - 1);
      HeadSum(0, seq(n - 1, _ => 0 as Digit));
      assert seq(n, _ => 0 as Digit) == [0 as Digit] + seq(n - 1, _ => 0 as Digit);
    }
  }

  /** Every sequence of digits has exactly one check digit. */
  lemma {:induction false} LuhnCheckDigit(p: seq<Digit>, x: Digit)
    ensures LuhnSum(p + [x]) % 10 == 0 <==> x as int == (10 - LuhnSum(p + [0]) % 10) % 10
  {
    assert p + [x] == p + [x] + [] && p + [0] == p + [0] + [];
    LuhnWeight(p, x, []);
    OneRemainder(LuhnSum(p + [0]), x as int);
  }

  lemma {:induction false} OneRemainder(a: int, d: int)
    requires 0 <= d < 10
    ensures (a + d) % 10 == 0 <==> d == (10 - a % 10) % 10
  {
  }

  predicate ZeroNine(x: Digit, y: Digit) {
    (x == 0 && y == 9) || (x == 9 && y == 0)
  }

  /** Exactly which adjacent transpositions escape: those of equal digits, and 0 with 9. */
  lemma {:induction false} LuhnTransposition(p: seq<Digit>, x: Digit, y: Digit, s: seq<Digit>)
    requires LuhnSum(p + [x, y] + s) % 10 == 0
    ensures LuhnSum(p + [y, x] + s) % 10 == 0 <==> x == y || ZeroNine(x, y)
  {
    assert p + [x, y] + s == p + ([x, y] + s) && p + [y, x] + s == p + ([y, x] + s);
    LuhnPrefix(p, [x, y] + s, [y, x] + s);
    PairSum(x, y, s);
    PairSum(y, x, s);
    var d := Weighted(x, |s| + 1) + Weighted(y, |s|) - Weighted(y, |s| + 1) - Weighted(x, |s|);
    PairDifference(x, y, |s|);
    SameResidue(LuhnSum(p + [x, y] + s), d);
  }

  lemma {:induction false} SameResidue(a: int, d: int)
    requires a % 10 == 0
    ensures (a - d) % 10 == 0 <==> d % 10 == 0
  {
  }

  lemma {:induction false} PairSum(x: Digit, y: Digit, s: seq<Digit>)
    ensures LuhnSum([x, y] + s) == Weighted(x, |s| + 1) + Weighted(y, |s|) + LuhnSum(s)
  {
    assert ([x, y] + s)[1..] == [y] + s;
    HeadSum(y, s);
  }

  lemma {:induction false} PairDifference(x: Digit, y: Digit, n: nat)
    ensures var d := Weighted(x, n + 1) + Weighted(y, n) - Weighted(y, n + 1) - Weighted(x, n);
            d % 10 == 0 <==> x == y || ZeroNine(x, y)
  {
  }

  lemma {:induction false} DigitsConcat(a: string, b: string)
    ensures Digits(a + b) == Digits(a) + Digits(b)
  {
    if a == "" {
      assert a + b == b;
    } else {
      assert (a + b)[1..] == a[1..] + b;
      DigitsConcat(a[1..], b);
    }
  }

  /** Digits are read as written, in order; everything else is passed over. */
  lemma {:induction false} DigitsAsWritten(value: string)
    ensures (forall i :: 0 <= i < |value| ==> IsDigit(value[i])) ==>
              && |Digits(value)| == |value|
              && forall i :: 0 <= i < |value| ==> Digits(value)[i] as int == value[i] as int - 48
    ensures (forall i :: 0 <= i < |value| ==> !IsDigit(value[i])) ==> Digits(value) == []
  {
    if value == "" {
    } else {
      DigitsAsWritten(value[1..]);
    }
  }

  lemma {:induction false} DigitsAround(value: string, i: nat, c: char)
    requires i < |value| && IsDigit(c)
    ensures Digits(value[i := c]) == Digits(value[..i]) + [DigitOf(c)] + Digits(value[i + 1..])
  {
    assert value[i := c] == value[..i] + ([c] + value[i + 1..]);
    DigitsConcat(value[..i], [c] + value[i + 1..]);
    DigitsConcat([c], value[i + 1..]);
    assert Digits([c]) == [DigitOf(c)] by { assert [c][1..] == ""; }
  }

  /** The validator rejects every card number obtained from an accepted one by changing one digit. */
  lemma {:induction false} LuhnOkRejectsSubstitution(value: string, i: nat, c: char)
    requires i < |value| && IsDigit(value[i]) && IsDigit(c) && c != value[i]
    requires LuhnOk(value)
    ensures !LuhnOk(value[i := c])
  {
    DigitsAround(value, i, c);
    DigitsAround(value, i, value[i]);
    assert value[i := value[i]] == value;
    LuhnDetectsSubstitution(Digits(value[..i]), DigitOf(value[i]), DigitOf(c), Digits(value[i + 1..]));
  }
}
