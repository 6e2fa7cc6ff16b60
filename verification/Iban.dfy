/** The IBAN check of the PII scanner (ISO 13616-1, MOD 97-10 of ISO/IEC 7064), on ASCII input. */
module Iban {
  import opened Common
  import opened Checksums

  // ---- The check ----

  function Upper(c: char): char {
    if 'a' <= c <= 'z' then (c as int - 32) as char else c
  }

  /** Whitespace removed, letters upper-cased. */
  function Clean(value: string): string {
    if value == "" then ""
    else if IsSpace(value[0]) then Clean(value[1..])
    else [Upper(value[0])] + Clean(value[1..])
  }

  predicate IsLetter(c: char) {
    'A' <= c <= 'Z'
  }

  predicate IsAlnum(c: char) {
    IsDigit(c) || IsLetter(c)
  }

  predicate AllAlnum(s: string) {
    forall i :: 0 <= i < |s| ==> IsAlnum(s[i])
  }

  /** The decimal digits that stand for one character: itself, or 10 for A up to 35 for Z. */
  function Code(c: char): seq<Digit>
    requires IsAlnum(c)
  {
    if IsDigit(c) then [DigitOf(c)]
    else
      var n := c as int - 55;
      [(n / 10) as Digit, (n % 10) as Digit]
  }

  function Expand(s: string): seq<Digit>
    requires AllAlnum(s)
  {
    if s == "" then [] else Expand(s[..|s| - 1]) + Code(s[|s| - 1])
  }

  /** The number written by `ds` after a number `acc` already read. */
  function Fold(acc: int, ds: seq<Digit>): int
    decreases |ds|
  {
    if ds == [] then acc else Fold(acc * 10 + ds[0] as int, ds[1..])
  }

  function Rearrange(s: string): string
    requires |s| >= 4
  {
    s[4..] + s[..4]
  }

  predicate Accepts(s: string) {
    15 <= |s| <= 34 && AllAlnum(Rearrange(s)) && Fold(0, Expand(Rearrange(s))) % 97 == 1
  }

  predicate IbanOk(value: string) {
    Accepts(Clean(value))
  }

  /** The source's check: collect the digits, give up on a foreign character, take the remainder. */
  method CheckIban(value: string) returns (ok: bool)
    ensures ok == IbanOk(value)
    ensures ok ==> 15 <= |Clean(value)| <= 34 && AllAlnum(Rearrange(Clean(value)))
  {
    var s := Clean(value);
    if |s| < 15 || |s| > 34 { return false; }
    var rearranged := Rearrange(s);
    var digits: seq<Digit> := [];
    for i := 0 to |rearranged|
      invariant AllAlnum(rearranged[..i])
      invariant digits == Expand(rearranged[..i])
    {
      var ch := rearranged[i];
      if !IsAlnum(ch) { return false; }
      assert rearranged[..i + 1][..i] == rearranged[..i];
      digits := digits + Code(ch);
    }
    assert rearranged[..|rearranged|] == rearranged;
    var n := HornerMod97(digits);
    ok := n == 1;
  }

  /** Digit-by-digit remainder: never needs the whole number. */
  method HornerMod97(ds: seq<Digit>) returns (n: int)
    ensures n == Fold(0, ds) % 97
  {
    n := 0;
    ghost var whole := 0;
    for i := 0 to |ds|
      invariant n == whole % 97
      invariant Fold(whole, ds[i..]) == Fold(0, ds)
    {
      assert ds[i..][1..] == ds[i + 1..];
      Residue(whole, ds[i] as int);
      n := (n * 10 + ds[i] as int) % 97;
      whole := whole * 10 + ds[i] as int;
    }
  }

  lemma {:induction false} Residue(a: int, d: int)
    ensures ((a % 97) * 10 + d) % 97 == (a * 10 + d) % 97
  {
    var q := a / 97;
    assert a * 10 + d == 97 * (10 * q) + ((a % 97) * 10 + d);
    Multiple(10 * q, (a % 97) * 10 + d);
  }

  lemma {:induction false} Multiple(q: int, r: int)
    ensures (97 * q + r) % 97 == r % 97
  {
  }

  // ---- Folding ----

  function Pow10(n: nat): int {
    if n == 0 then 1 else 10 * Pow10(n - 1)
  }

  lemma {:induction false} FoldConcat(acc: int, a: seq<Digit>, b: seq<Digit>)
    ensures Fold(acc, a + b) == Fold(Fold(acc, a), b)
    decreases |a|
  {
    if a == [] {
      assert a + b == b;
    } else {
      assert (a + b)[1..] == a[1..] + b;
      FoldConcat(acc * 10 + a[0] as int, a[1..], b);
    }
  }

  /** A difference in the number read so far is carried through, scaled by a power of ten. */
  lemma {:induction false} FoldDifference(x: int, y: int, ds: seq<Digit>)
    ensures Fold(x, ds) - Fold(y, ds) == (x - y) * Pow10(|ds|)
    decreases |ds|
  {
    if ds == [] {
    } else {
      var d := ds[0] as int;
      FoldDifference(x * 10 + d, y * 10 + d, ds[1..]);
      assert (x * 10 + d) - (y * 10 + d) == 10 * (x - y);
      assert (10 * (x - y)) * Pow10(|ds| - 1) == (x - y) * (10 * Pow10(|ds| - 1));
    }
  }

  /** Ten is invertible modulo 97. */
  lemma {:induction false} TenIsUnit(x: int)
    requires (10 * x) % 97 == 0
    ensures x % 97 == 0
  {
    var q := 10 * x / 97;
    assert x == 97 * (68 * q - 7 * x);
  }

  lemma {:induction false} PowersAreUnits(x: int, n: nat)
    requires (x * Pow10(n)) % 97 == 0
    ensures x % 97 == 0
    decreases n
  {
    if n == 0 {
    } else {
      var p := Pow10(n - 1);
      assert x * Pow10(n) == (10 * x) * p by { assert Pow10(n) == 10 * p; Regroup(x, p); }
      PowersAreUnits(10 * x, n - 1);
      TenIsUnit(x);
    }
  }

  lemma {:induction false} Regroup(x: int, p: int)
    ensures x * (10 * p) == (10 * x) * p == 10 * (x * p)
  {
  }

  lemma {:induction false} ExpandConcat(a: string, b: string)
    requires AllAlnum(a) && AllAlnum(b)
    ensures AllAlnum(a + b) && Expand(a + b) == Expand(a) + Expand(b)
    ensures |Expand(b)| <= 2 * |b|
  {
    if b == "" {
      assert a + b == a;
    } else {
      var init, c := b[..|b| - 1], b[|b| - 1];
      ExpandConcat(a, init);
      assert (a + b)[..|a + b| - 1] == a + init && (a + b)[|a + b| - 1] == c;
      assert Expand(a + b) == Expand(a + init) + Code(c);
    }
  }

  /** The number a character's code adds after `acc`. */
  lemma {:induction false} FoldCode(acc: int, c: char)
    requires IsAlnum(c)
    ensures Fold(acc, Code(c)) == if IsDigit(c) then acc * 10 + (c as int - 48) else acc * 100 + (c as int - 55)
  {
    var code := Code(c);
    if IsDigit(c) {
      assert code[1..] == [];
    } else {
      assert code[1..] == [code[1]] && code[1..][1..] == [];
      var first, second := code[0] as int, code[1] as int;
      assert Fold(acc, code) == Fold(acc * 10 + first, [code[1]]) == (acc * 10 + first) * 10 + second;
    }
  }

  lemma {:induction false} FoldAround(p: string, m: string, s: string)
    requires AllAlnum(p) && AllAlnum(m) && AllAlnum(s)
    ensures AllAlnum(p + m + s)
    ensures Fold(0, Expand(p + m + s)) == Fold(Fold(Fold(0, Expand(p)), Expand(m)), Expand(s))
  {
    ExpandConcat(p, m);
    ExpandConcat(p + m, s);
    FoldConcat(0, Expand(p + m), Expand(s));
    FoldConcat(0, Expand(p), Expand(m));
  }

  /** Reading the same digits after two numbers keeps them apart modulo 97. */
  lemma {:induction false} FoldKeepsApart(x: int, y: int, ds: seq<Digit>)
    requires Fold(x, ds) % 97 == Fold(y, ds) % 97
    ensures (x - y) % 97 == 0
  {
    FoldDifference(x, y, ds);
    EqualResidues(Fold(x, ds), Fold(y, ds));
    PowersAreUnits(x - y, |ds|);
  }

  lemma {:induction false} EqualResidues(n: int, m: int)
    ensures n % 97 == m % 97 <==> (n - m) % 97 == 0
  {
  }

  lemma {:induction false} Small(d: int)
    requires -97 < d < 97 && d % 97 == 0
    ensures d == 0
  {
  }

  lemma {:induction false} ExpandOne(c: char)
    requires IsAlnum(c)
    ensures AllAlnum([c]) && Expand([c]) == Code(c)
  {
    assert [c][..0] == "";
  }

  // ---- What the check detects ----

  predicate SameClass(c: char, c': char) {
    (IsDigit(c) && IsDigit(c')) || (IsLetter(c) && IsLetter(c'))
  }

  lemma {:induction false} OneAround(p: string, c: char, s: string)
    requires AllAlnum(p) && AllAlnum(s) && IsAlnum(c)
    ensures AllAlnum(p + [c] + s)
    ensures Fold(0, Expand(p + [c] + s)) == Fold(Fold(Fold(0, Expand(p)), Code(c)), Expand(s))
  {
    ExpandOne(c);
    FoldAround(p, [c], s);
  }

  lemma {:induction false} CodesApart(a: int, c: char, c': char)
    requires SameClass(c, c')
    ensures Fold(a, Code(c)) - Fold(a, Code(c')) == c as int - c' as int
    ensures -97 < c as int - c' as int < 97
  {
    FoldCode(a, c); FoldCode(a, c');
  }

  /** One character replaced by another of its class changes the remainder, wherever it stands. */
  lemma {:induction false} SubstitutionDetected(p: string, c: char, c': char, s: string)
    requires AllAlnum(p) && AllAlnum(s) && SameClass(c, c') && c != c'
    ensures AllAlnum(p + [c] + s) && AllAlnum(p + [c'] + s)
    ensures Fold(0, Expand(p + [c] + s)) % 97 != Fold(0, Expand(p + [c'] + s)) % 97
  {
    OneAround(p, c, s); OneAround(p, c', s);
    var a := Fold(0, Expand(p));
    CodesApart(a, c, c');
    var x, y := Fold(a, Code(c)), Fold(a, Code(c'));
    if Fold(x, Expand(s)) % 97 == Fold(y, Expand(s)) % 97 {
      FoldKeepsApart(x, y, Expand(s));
      Small(x - y);
    }
  }

  /** Two unequal adjacent digits exchanged change the remainder, wherever they stand. */
  lemma {:induction false} TranspositionDetected(p: string, c: char, c': char, s: string)
    requires AllAlnum(p) && AllAlnum(s) && IsDigit(c) && IsDigit(c') && c != c'
    ensures AllAlnum(p + [c, c'] + s) && AllAlnum(p + [c', c] + s)
    ensures Fold(0, Expand(p + [c, c'] + s)) % 97 != Fold(0, Expand(p + [c', c] + s)) % 97
  {
    var a := Fold(0, Expand(p));
    FoldPair(a, c, c'); FoldPair(a, c', c);
    FoldAround(p, [c, c'], s); FoldAround(p, [c', c], s);
    var x, y := Fold(a, Expand([c, c'])), Fold(a, Expand([c', c]));
    assert x - y == 9 * (c as int - c' as int);
    if Fold(x, Expand(s)) % 97 == Fold(y, Expand(s)) % 97 {
      FoldKeepsApart(x, y, Expand(s));
      Small(x - y);
    }
  }

  lemma {:induction false} FoldPair(a: int, c: char, c': char)
    requires IsDigit(c) && IsDigit(c')
    ensures AllAlnum([c, c']) && Fold(a, Expand([c, c'])) == a * 100 + (c as int - 48) * 10 + (c' as int - 48)
  {
    assert [c, c'][..1] == [c];
    ExpandOne(c);
    FoldConcat(a, Code(c), Code(c'));
    FoldCode(a, c); FoldCode(Fold(a, Code(c)), c');
  }

  // ---- The same, on the account number as written ----

  /** Where a character of the number stands once its first four are moved to the end. */
  function Moved(s: string, i: nat): nat
    requires 4 <= |s| && i < |s|
  {
    if i < 4 then |s| - 4 + i else i - 4
  }

  lemma {:induction false} MovedUpdate(s: string, i: nat, c: char)
    requires 4 <= |s| && i < |s|
    ensures Rearrange(s)[Moved(s, i)] == s[i]
    ensures Rearrange(s[i := c]) == Rearrange(s)[Moved(s, i) := c]
  {
  }

  lemma {:induction false} SplitAt(r: string, j: nat)
    requires j < |r| && AllAlnum(r)
    ensures AllAlnum(r[..j]) && AllAlnum(r[j + 1..])
    ensures forall c :: r[j := c] == r[..j] + [c] + r[j + 1..]
  {
  }

  /** Changing one character of an accepted number to another of its class makes it rejected. */
  lemma {:induction false} RejectsSubstitution(s: string, i: nat, c: char)
    requires Accepts(s) && i < |s| && SameClass(s[i], c) && c != s[i]
    ensures !Accepts(s[i := c])
  {
    var r, j := Rearrange(s), Moved(s, i);
    MovedUpdate(s, i, c);
    SplitAt(r, j);
    assert r[j := r[j]] == r;
    SubstitutionDetected(r[..j], s[i], c, r[j + 1..]);
  }

  function Exchange(s: string, i: nat): string
    requires i + 1 < |s|
  {
    s[i := s[i + 1]][i + 1 := s[i]]
  }

  /** A pair that the rearrangement keeps together. */
  lemma {:induction false} RejectsInnerTransposition(s: string, i: nat)
    requires Accepts(s) && i + 1 < |s| && IsDigit(s[i]) && IsDigit(s[i + 1]) && s[i] != s[i + 1]
    requires i != 3
    ensures !Accepts(Exchange(s, i))
  {
    var r, j := Rearrange(s), Moved(s, i);
    SplitPair(s, i);
    assert AllAlnum(r[..j]) && AllAlnum(r[j + 2..]);
    TranspositionDetected(r[..j], s[i], s[i + 1], r[j + 2..]);
  }

  lemma {:induction false} SplitPair(s: string, i: nat)
    requires |s| >= 4 && i + 1 < |s| && i != 3
    ensures var r, j := Rearrange(s), Moved(s, i);
            && j + 2 <= |r| && r == r[..j] + [s[i], s[i + 1]] + r[j + 2..]
            && Rearrange(Exchange(s, i)) == r[..j] + [s[i + 1], s[i]] + r[j + 2..]
  {
  }

  /**
   The fourth and fifth character end up last and first: their exchange escapes exactly if 10 to
   the distance is 1 modulo 97.
   */
  lemma {:induction false} EndsExchanged(s: string)
    requires Accepts(s) && IsDigit(s[3]) && IsDigit(s[4]) && s[3] != s[4]
    ensures var n := |Expand(Rearrange(s))|;
            n >= 2 && (Accepts(Exchange(s, 3)) <==> Pow10(n - 1) % 97 == 1)
  {
    var x, m, y := s[4], Rearrange(s)[1..|s| - 1], s[3];
    SplitEnds(s);
    assert AllAlnum(m);
    EndsValue(x, m, y); EndsValue(y, m, x);
    EndsDecided(x as int - 48, y as int - 48, Expand(m));
  }

  lemma {:induction false} SplitEnds(s: string)
    requires |s| >= 15
    ensures var m := Rearrange(s)[1..|s| - 1];
            Rearrange(s) == [s[4]] + m + [s[3]] && Rearrange(Exchange(s, 3)) == [s[3]] + m + [s[4]]
  {
  }

  /** Exchanging two unequal adjacent digits of an accepted number makes it rejected, wherever they stand. */
  lemma {:induction false} RejectsTransposition(s: string, i: nat)
    requires Accepts(s) && i + 1 < |s| && IsDigit(s[i]) && IsDigit(s[i + 1]) && s[i] != s[i + 1]
    ensures !Accepts(Exchange(s, i))
  {
    if i != 3 {
      RejectsInnerTransposition(s, i);
    } else {
      EndsExchanged(s);
      var r := Rearrange(s);
      ExpandConcat("", r);
      PowersAreNotOne(|Expand(r)| - 1);
    }
  }

  lemma {:induction false} EndsValue(x: char, m: string, y: char)
    requires IsDigit(x) && IsDigit(y) && AllAlnum(m)
    ensures AllAlnum([x] + m + [y]) && |Expand([x] + m + [y])| == |Expand(m)| + 2
    ensures Fold(0, Expand([x] + m + [y])) == Fold(x as int - 48, Expand(m)) * 10 + (y as int - 48)
  {
    ExpandOne(x); ExpandOne(y);
    ExpandConcat([x], m); ExpandConcat([x] + m, [y]);
    FoldAround([x], m, [y]);
    FoldCode(0, x);
    FoldCode(Fold(x as int - 48, Expand(m)), y);
  }

  lemma {:induction false} EndsDecided(x: int, y: int, ds: seq<Digit>)
    requires 0 <= x < 10 && 0 <= y < 10 && x != y
    requires (Fold(x, ds) * 10 + y) % 97 == 1
    ensures (Fold(y, ds) * 10 + x) % 97 == 1 <==> Pow10(|ds| + 1) % 97 == 1
  {
    var a, b, p, d := Fold(x, ds) * 10 + y, Fold(y, ds) * 10 + x, Pow10(|ds| + 1), x - y;
    FoldDifference(x, y, ds);
    assert a - b == d * (p - 1) by {
      Regroup(d, Pow10(|ds|));
      assert p == 10 * Pow10(|ds|);
      assert d * (p - 1) == d * p - d;
    }
    EqualResidues(a, b);
    EqualResidues(p, 1);
    SmallFactor(d, p - 1);
  }

  /** No difference of two digits shares a factor with 97. */
  lemma {:induction false} SmallFactor(d: int, z: int)
    requires -9 <= d <= 9 && d != 0
    ensures (d * z) % 97 == 0 <==> z % 97 == 0
  {
    var e := if d < 0 then -d else d;
    var inverse := [1, 49, 65, 73, 39, 81, 14, 85, 54][e - 1];
    var t := [0, 1, 2, 3, 2, 5, 1, 7, 5][e - 1];
    assert inverse * e == 97 * t + 1;
    if (d * z) % 97 == 0 {
      var k := if d < 0 then -(d * z / 97) else d * z / 97;
      assert e * z == 97 * k;
      Cancel(e, inverse, t, z, k);
    }
    if z % 97 == 0 {
      var k := z / 97;
      assert d * z == 97 * (d * k);
      Multiple(d * k, 0);
    }
  }

  lemma {:induction false} Cancel(e: int, inverse: int, t: int, z: int, k: int)
    requires e * z == 97 * k && inverse * e == 97 * t + 1
    ensures z % 97 == 0
  {
    assert inverse * (e * z) == (inverse * e) * z;
    assert inverse * (97 * k) == 97 * (inverse * k) && (97 * t + 1) * z == 97 * (t * z) + z;
    assert z == 97 * (inverse * k - t * z);
    Multiple(inverse * k - t * z, 0);
  }

  // ---- Cleaning ----

  lemma {:induction false} CleanConcat(a: string, b: string)
    ensures Clean(a + b) == Clean(a) + Clean(b)
  {
    if a == "" {
      assert a + b == b;
    } else {
      assert (a + b)[1..] == a[1..] + b;
      CleanConcat(a[1..], b);
    }
  }

  lemma {:induction false} CleanBlank(blank: string)
    requires forall i :: 0 <= i < |blank| ==> IsSpace(blank[i])
    ensures Clean(blank) == ""
  {
    if blank == "" {
    } else {
      CleanBlank(blank[1..]);
    }
  }

  lemma {:induction false} CleanFixed(s: string)
    requires AllAlnum(s)
    ensures Clean(s) == s
  {
    if s == "" {
    } else {
      assert AllAlnum(s[1..]);
      CleanFixed(s[1..]);
      assert IsAlnum(s[0]) && s == [s[0]] + s[1..];
    }
  }

  /** A number in capitals without blanks is checked as it stands. */
  lemma {:induction false} ChecksAsWritten(s: string)
    requires AllAlnum(s)
    ensures IbanOk(s) <==> Accepts(s)
  {
    CleanFixed(s);
  }

  /** Blanks do not matter. */
  lemma {:induction false} BlanksIgnored(a: string, blank: string, b: string)
    requires forall i :: 0 <= i < |blank| ==> IsSpace(blank[i])
    ensures IbanOk(a + blank + b) <==> IbanOk(a + b)
  {
    CleanConcat(a + blank, b);
    CleanConcat(a, blank);
    CleanConcat(a, b);
    CleanBlank(blank);
    assert Clean(a) + "" + Clean(b) == Clean(a) + Clean(b);
  }

  /** Neither does the case of a letter. */
  lemma {:induction false} CaseIgnored(a: string, c: char, b: string)
    requires 'A' <= c <= 'Z'
    ensures IbanOk(a + [(c as int + 32) as char] + b) <==> IbanOk(a + [c] + b)
  {
    var small := (c as int + 32) as char;
    CleanConcat(a + [small], b); CleanConcat(a, [small]);
    CleanConcat(a + [c], b); CleanConcat(a, [c]);
    assert Clean([small]) == [c] == Clean([c]) by { assert [small][1..] == "" == [c][1..]; }
  }

  // ---- The check digits ----

  /** The number written by a string of digits and letters. */
  function Number(s: string): int
    requires AllAlnum(s)
  {
    Fold(0, Expand(s))
  }

  lemma {:induction false} NumberWithCheck(s: string, c: char, c': char)
    requires AllAlnum(s) && IsDigit(c) && IsDigit(c')
    ensures AllAlnum(s + [c, c'] + "")
    ensures Number(s + [c, c'] + "") == 100 * Number(s) + 10 * (c as int - 48) + (c' as int - 48)
  {
    FoldPair(Number(s), c, c');
    FoldAround(s, [c, c'], "");
  }

  /**
   The rule of ISO 13616-1: of the check digits 02 to 98 exactly those that make 98 with the
   remainder of the rest are accepted, for every country and account.
   */
  lemma {:induction false} CheckDigitsDecide(country: string, c: char, c': char, account: string)
    requires |country| == 2 && AllAlnum(country) && AllAlnum(account) && 11 <= |account| <= 30
    requires IsDigit(c) && IsDigit(c') && 2 <= 10 * (c as int - 48) + (c' as int - 48) <= 98
    ensures AllAlnum(account + country)
    ensures Accepts(country + [c, c'] + account) <==>
            10 * (c as int - 48) + (c' as int - 48) == 98 - (100 * Number(account + country)) % 97
  {
    var s, rest := country + [c, c'] + account, account + country;
    ExpandConcat(account, country);
    NumberWithCheck(rest, c, c');
    assert Rearrange(s) == rest + [c, c'] + "";
    CheckRemainder(100 * Number(rest), 10 * (c as int - 48) + (c' as int - 48));
  }

  lemma {:induction false} CheckRemainder(n: int, d: int)
    requires 2 <= d <= 98
    ensures (n + d) % 97 == 1 <==> d == 98 - n % 97
  {
    var r := n % 97;
    assert n + d == 97 * (n / 97) + (r + d);
    Multiple(n / 97, r + d);
  }

  // ---- The order of ten modulo 97 ----

  lemma {:induction false} NextEight(k: nat)
    ensures var p := Pow10(k);
            && Pow10(k + 1) == 10 * p
            && Pow10(k + 2) == 100 * p
            && Pow10(k + 3) == 1_000 * p
            && Pow10(k + 4) == 10_000 * p
            && Pow10(k + 5) == 100_000 * p
            && Pow10(k + 6) == 1_000_000 * p
            && Pow10(k + 7) == 10_000_000 * p
            && Pow10(k + 8) == 100_000_000 * p
  {
  }

  /** The residues of eight consecutive powers, from the first. */
  lemma {:induction false} Block(k: nat, r: int)
    requires Pow10(k) % 97 == r
    ensures Pow10(k + 1) % 97 == (10 * r) % 97
    ensures Pow10(k + 2) % 97 == (100 * r) % 97
    ensures Pow10(k + 3) % 97 == (1_000 * r) % 97
    ensures Pow10(k + 4) % 97 == (10_000 * r) % 97
    ensures Pow10(k + 5) % 97 == (100_000 * r) % 97
    ensures Pow10(k + 6) % 97 == (1_000_000 * r) % 97
    ensures Pow10(k + 7) % 97 == (10_000_000 * r) % 97
    ensures Pow10(k + 8) % 97 == (100_000_000 * r) % 97
  {
    var p := Pow10(k);
    NextEight(k);
    Scaled(10, p, r);
    Scaled(100, p, r);
    Scaled(1_000, p, r);
    Scaled(10_000, p, r);
    Scaled(100_000, p, r);
    Scaled(1_000_000, p, r);
    Scaled(10_000_000, p, r);
    Scaled(100_000_000, p, r);
  }

  lemma {:induction false} Scaled(c: int, p: int, r: int)
    requires p % 97 == r
    ensures (c * p) % 97 == (c * r) % 97
  {
    var q := p / 97;
    assert c * p == 97 * (c * q) + c * r by {
      assert p == 97 * q + r;
      assert c * (97 * q + r) == c * (97 * q) + c * r;
      assert c * (97 * q) == 97 * (c * q);
    }
    Multiple(c * q, c * r);
  }

  /** The residues of every eighth power. */
  const EIGHTHS: seq<int> := [1, 81, 62, 75, 61, 91, 96, 16, 35]

  lemma {:induction false} BlockIsNotOne(start: nat, a: nat, k: nat)
    requires a < 9 && Pow10(start) % 97 == EIGHTHS[a] && start <= k < start + 8
    ensures k > start || a > 0 ==> Pow10(k) % 97 != 1
  {
    Block(start, EIGHTHS[a]);
  }

  lemma {:induction false} NextBlock(start: nat, a: nat)
    requires a < 8 && Pow10(start) % 97 == EIGHTHS[a]
    ensures Pow10(start + 8) % 97 == EIGHTHS[a + 1]
  {
    NextEight(start);
    Scaled(100_000_000, Pow10(start), EIGHTHS[a]);
    EighthsStep(a);
  }

  lemma {:induction false} EighthsStep(a: nat)
    requires a < 8
    ensures (100_000_000 * EIGHTHS[a]) % 97 == EIGHTHS[a + 1]
  {
  }

  lemma {:induction false} NotOneFrom(a: nat, start: nat, k: nat)
    requires a < 9 && start == 8 * a && Pow10(start) % 97 == EIGHTHS[a] && start <= k < 72 && k > 0
    ensures Pow10(k) % 97 != 1
    decreases 9 - a
  {
    if k < start + 8 {
      BlockIsNotOne(start, a, k);
    } else {
      NextBlock(start, a);
      NotOneFrom(a + 1, start + 8, k);
    }
  }

  /** Within the length of any account number, no power of ten but the zeroth is 1 modulo 97. */
  lemma {:induction false} PowersAreNotOne(k: nat)
    requires 1 <= k < 72
    ensures Pow10(k) % 97 != 1
  {
    NotOneFrom(0, 0, k);
  }
}
