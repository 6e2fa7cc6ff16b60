/**
 Overlap resolution and masking of the PII scanner.  The candidates are whatever the pattern
 rules matched: any non-empty spans inside the text, in any order and overlapping at will.
 */
module Redaction {

  datatype Category = Email | Phone | CreditCard | BankAccount | NationalId | ApiKey | Secret
  datatype Severity = Low | Medium | High

  datatype Finding = Finding(category: Category, start: nat, end: nat, severity: Severity)

  function Rank(s: Severity): nat {
    match s case Low => 0 case Medium => 1 case High => 2
  }

  function Token(c: Category): string {
    match c
    case Email => "\U{00AB}EMAIL\U{00BB}"
    case Phone => "\U{00AB}PHONE\U{00BB}"
    case CreditCard => "\U{00AB}CARD\U{00BB}"
    case BankAccount => "\U{00AB}IBAN\U{00BB}"
    case NationalId => "\U{00AB}ID\U{00BB}"
    case ApiKey => "\U{00AB}API_KEY\U{00BB}"
    case Secret => "\U{00AB}SECRET\U{00BB}"
  }

  predicate InText(f: Finding, length: nat) {
    f.start < f.end <= length
  }

  predicate AllInText(fs: seq<Finding>, length: nat) {
    forall i :: 0 <= i < |fs| ==> InText(fs[i], length)
  }

  // ---- The sort ----

  /** The sort key: earlier start, then longer span, then higher severity. */
  predicate NoLater(a: Finding, b: Finding) {
    || a.start < b.start
    || (a.start == b.start && a.end - a.start > b.end - b.start)
    || (a.start == b.start && a.end - a.start == b.end - b.start && Rank(a.severity) >= Rank(b.severity))
  }

  ghost predicate InOrder(fs: seq<Finding>) {
    forall i, j :: 0 <= i < j < |fs| ==> NoLater(fs[i], fs[j])
  }

  /** Insert after everything that is not strictly later: the stable choice. */
  function Insert(fs: seq<Finding>, f: Finding): seq<Finding> {
    if fs == [] || NoLater(fs[|fs| - 1], f) then fs + [f]
    else Insert(fs[..|fs| - 1], f) + [fs[|fs| - 1]]
  }

  function Sorted(fs: seq<Finding>): seq<Finding> {
    if fs == [] then [] else Insert(Sorted(fs[..|fs| - 1]), fs[|fs| - 1])
  }

  lemma {:induction false} InsertPermutes(fs: seq<Finding>, f: Finding)
    ensures multiset(Insert(fs, f)) == multiset(fs) + multiset{f}
  {
    if fs != [] && !NoLater(fs[|fs| - 1], f) {
      InsertPermutes(fs[..|fs| - 1], f);
      assert fs == fs[..|fs| - 1] + [fs[|fs| - 1]];
    }
  }

  lemma {:induction false} InsertOrders(fs: seq<Finding>, f: Finding)
    requires InOrder(fs)
    ensures InOrder(Insert(fs, f))
  {
    if fs != [] && !NoLater(fs[|fs| - 1], f) {
      var init, last := fs[..|fs| - 1], fs[|fs| - 1];
      InsertOrders(init, f);
      InsertPermutes(init, f);
      var r := Insert(init, f);
      forall i | 0 <= i < |r| ensures NoLater(r[i], last) {
        assert r[i] in multiset(r);
        assert r[i] in init || r[i] == f;
      }
    }
  }

  lemma {:induction false} SortedSpec(fs: seq<Finding>)
    ensures multiset(Sorted(fs)) == multiset(fs) && InOrder(Sorted(fs))
  {
    if fs == [] {
    } else {
      var init, last := fs[..|fs| - 1], fs[|fs| - 1];
      SortedSpec(init);
      InsertPermutes(Sorted(init), last);
      InsertOrders(Sorted(init), last);
      assert fs == init + [last];
    }
  }

  lemma {:induction false} SortedMembers(fs: seq<Finding>, f: Finding)
    ensures f in Sorted(fs) <==> f in fs
  {
    SortedSpec(fs);
    assert f in fs <==> f in multiset(fs);
    assert f in Sorted(fs) <==> f in multiset(Sorted(fs));
  }

  // ---- Resolving overlaps ----

  function LastEnd(kept: seq<Finding>): int {
    if kept == [] then -1 else kept[|kept| - 1].end
  }

  /** The greedy pass: keep what starts at or after the end of the last one kept. */
  function Greedy(ordered: seq<Finding>): seq<Finding> {
    if ordered == [] then []
    else
      var kept, f := Greedy(ordered[..|ordered| - 1]), ordered[|ordered| - 1];
      if f.start >= LastEnd(kept) then kept + [f] else kept
  }

  function Resolve(fs: seq<Finding>): seq<Finding> {
    if |fs| <= 1 then fs else Greedy(Sorted(fs))
  }

  method ResolveOverlaps(findings: seq<Finding>) returns (kept: seq<Finding>)
    ensures kept == Resolve(findings)
  {
    if |findings| <= 1 { return findings; }
    var ordered := Sorted(findings);
    kept := [];
    var lastEnd: int := -1;
    for i := 0 to |ordered|
      invariant kept == Greedy(ordered[..i]) && lastEnd == LastEnd(kept)
    {
      assert ordered[..i + 1][..i] == ordered[..i];
      var f := ordered[i];
      if f.start >= lastEnd {
        kept := kept + [f];
        lastEnd := f.end;
      }
    }
    assert ordered[..|ordered|] == ordered;
  }

  /** Spans in ascending order, none reaching into the next. */
  ghost predicate Apart(fs: seq<Finding>) {
    forall i, j :: 0 <= i < j < |fs| ==> fs[i].end <= fs[j].start
  }

  lemma {:induction false} ApartNext(kept: seq<Finding>, f: Finding, length: nat)
    requires Apart(kept) && AllInText(kept, length) && f.start >= LastEnd(kept)
    ensures Apart(kept + [f])
  {
    forall i | 0 <= i < |kept| ensures kept[i].end <= f.start {
      assert InText(kept[|kept| - 1], length);
    }
  }

  lemma {:induction false} GreedyKeepsApart(ordered: seq<Finding>, length: nat)
    requires InOrder(ordered) && AllInText(ordered, length)
    ensures Apart(Greedy(ordered)) && AllInText(Greedy(ordered), length)
    ensures forall g :: g in Greedy(ordered) ==> g in ordered
  {
    if ordered == [] {
    } else {
      var init, f := ordered[..|ordered| - 1], ordered[|ordered| - 1];
      var kept := Greedy(init);
      assert ordered == init + [f];
      assert InText(f, length) && InOrder(init) && AllInText(init, length);
      GreedyKeepsApart(init, length);
      if f.start >= LastEnd(kept) {
        ApartNext(kept, f, length);
        assert Greedy(ordered) == kept + [f];
      } else {
        assert Greedy(ordered) == kept;
      }
    }
  }

  /** Whatever the pass drops starts inside a span it keeps, which is no later in the order. */
  lemma {:induction false} GreedyCoversStarts(ordered: seq<Finding>, f: Finding)
    requires InOrder(ordered) && f in ordered
    ensures f in Greedy(ordered) || exists g :: g in Greedy(ordered) && g.start <= f.start < g.end && NoLater(g, f)
  {
    var init, last := ordered[..|ordered| - 1], ordered[|ordered| - 1];
    var kept := Greedy(init);
    if f in init {
      GreedyCoversStarts(init, f);
      if f !in kept {
        var g :| g in kept && g.start <= f.start < g.end && NoLater(g, f);
        assert g in Greedy(ordered);
      }
    } else {
      assert f == last;
      if f.start < LastEnd(kept) {
        var g := kept[|kept| - 1];
        GreedyMembers(init, g);
        assert g in Greedy(ordered);
      }
    }
  }

  lemma {:induction false} GreedyMembers(ordered: seq<Finding>, g: Finding)
    requires g in Greedy(ordered)
    ensures g in ordered
  {
    if g in Greedy(ordered[..|ordered| - 1]) { GreedyMembers(ordered[..|ordered| - 1], g); }
  }

  /** The kept findings are an ascending, disjoint selection of the candidates. */
  lemma {:induction false} ResolvedApart(fs: seq<Finding>, length: nat)
    requires AllInText(fs, length)
    ensures Apart(Resolve(fs)) && AllInText(Resolve(fs), length)
    ensures forall g :: g in Resolve(fs) ==> g in fs
  {
    if |fs| > 1 {
      SortedSpec(fs);
      forall i | 0 <= i < |Sorted(fs)| ensures InText(Sorted(fs)[i], length) {
        SortedMembers(fs, Sorted(fs)[i]);
      }
      GreedyKeepsApart(Sorted(fs), length);
      forall g | g in Resolve(fs) ensures g in fs { SortedMembers(fs, g); }
    }
  }

  /** Each candidate is kept, or starts inside a kept one that the sort places no later. */
  lemma {:induction false} ResolvedCoversStarts(fs: seq<Finding>, f: Finding)
    requires f in fs
    ensures f in Resolve(fs) || exists g :: g in Resolve(fs) && g.start <= f.start < g.end && NoLater(g, f)
  {
    if |fs| > 1 {
      SortedSpec(fs);
      SortedMembers(fs, f);
      GreedyCoversStarts(Sorted(fs), f);
    }
  }

  // ---- Masking ----

  function Splice(text: string, f: Finding): string
    requires InText(f, |text|)
  {
    text[..f.start] + Token(f.category) + text[f.end..]
  }

  lemma {:induction false} SpliceLeavesRoom(text: string, fs: seq<Finding>, f: Finding)
    requires InText(f, |text|) && AllInText(fs, f.start)
    ensures AllInText(fs, |Splice(text, f)|)
  {
  }

  /** Splicing the last span first, so that the offsets of the others stay valid. */
  function SpliceAll(text: string, fs: seq<Finding>): string
    requires AllInText(fs, |text|) && Apart(fs)
    decreases |fs|
  {
    if fs == [] then text
    else
      var init, last := fs[..|fs| - 1], fs[|fs| - 1];
      SpliceLeavesRoom(text, init, last);
      SpliceAll(Splice(text, last), init)
  }

  /** Left to right: gap, token, gap, token, and the rest of the text. */
  function Rebuild(text: string, fs: seq<Finding>, from: nat): string
    requires AllInText(fs, |text|) && Apart(fs)
    requires from <= |text| && (fs != [] ==> from <= fs[0].start)
    decreases |fs|
  {
    if fs == [] then text[from..]
    else text[from..fs[0].start] + Token(fs[0].category) + Rebuild(text, fs[1..], fs[0].end)
  }

  lemma {:induction false} InitInText(text: string, fs: seq<Finding>)
    requires fs != [] && AllInText(fs, |text|) && Apart(fs)
    ensures AllInText(fs[..|fs| - 1], |Splice(text, fs[|fs| - 1])|) && Apart(fs[..|fs| - 1])
  {
    SpliceLeavesRoom(text, fs[..|fs| - 1], fs[|fs| - 1]);
  }

  /** Splicing out the last span beforehand does not change what the rebuild yields. */
  lemma {:induction false} RebuildSpliced(text: string, fs: seq<Finding>, from: nat)
    requires fs != [] && AllInText(fs, |text|) && Apart(fs) && from <= fs[0].start
    requires AllInText(fs[..|fs| - 1], |Splice(text, fs[|fs| - 1])|)
    ensures Rebuild(Splice(text, fs[|fs| - 1]), fs[..|fs| - 1], from) == Rebuild(text, fs, from)
    decreases |fs|
  {
    var init, last := fs[..|fs| - 1], fs[|fs| - 1];
    SplicedEnds(text, last, from, if init == [] then from else fs[0].start);
    if init == [] {
      assert fs[1..] == [];
    } else {
      var rest := fs[1..];
      assert rest[..|rest| - 1] == init[1..] && rest[|rest| - 1] == last;
      InitInText(text, rest);
      RebuildSpliced(text, rest, fs[0].end);
    }
  }

  lemma {:induction false} SplicedEnds(text: string, f: Finding, from: nat, to: nat)
    requires InText(f, |text|) && from <= to <= f.start
    ensures Splice(text, f)[from..to] == text[from..to]
    ensures Splice(text, f)[from..] == text[from..f.start] + Token(f.category) + text[f.end..]
  {
  }

  /** Right-to-left splicing equals the left-to-right rebuild: all text outside the spans survives, in order. */
  lemma {:induction false} SpliceIsRebuild(text: string, fs: seq<Finding>)
    requires AllInText(fs, |text|) && Apart(fs)
    ensures SpliceAll(text, fs) == Rebuild(text, fs, 0)
    decreases |fs|
  {
    if fs == [] {
      assert text[0..] == text;
    } else {
      var init, last := fs[..|fs| - 1], fs[|fs| - 1];
      InitInText(text, fs);
      RebuildSpliced(text, fs, 0);
      SpliceIsRebuild(Splice(text, last), init);
    }
  }

  /** The masking loop over findings that do not overlap, in whatever order they come. */
  method Mask(text: string, findings: seq<Finding>) returns (out: string)
    requires AllInText(findings, |text|) && Apart(Sorted(findings))
    ensures AllInText(Sorted(findings), |text|)
    ensures out == Rebuild(text, Sorted(findings), 0)
  {
    var ordered := Sorted(findings);
    forall i | 0 <= i < |ordered| ensures InText(ordered[i], |text|) { SortedMembers(findings, ordered[i]); }
    out := text;
    var n := |ordered|;
    assert ordered[..n] == ordered;
    while n > 0
      invariant 0 <= n <= |ordered|
      invariant AllInText(ordered[..n], |out|) && Apart(ordered[..n])
      invariant SpliceAll(out, ordered[..n]) == SpliceAll(text, ordered)
    {
      var f := ordered[n - 1];
      assert ordered[..n][..n - 1] == ordered[..n - 1] && ordered[..n][n - 1] == f;
      SpliceLeavesRoom(out, ordered[..n - 1], f);
      out := Splice(out, f);
      n := n - 1;
    }
    SpliceIsRebuild(text, ordered);
  }

  /** An already ascending list is left as it is by the sort. */
  lemma {:induction false} SortedFixed(fs: seq<Finding>)
    requires InOrder(fs)
    ensures Sorted(fs) == fs
  {
    if fs == [] {
    } else {
      var init, last := fs[..|fs| - 1], fs[|fs| - 1];
      SortedFixed(init);
      InsertAtEnd(init, last);
      assert fs == init + [last];
    }
  }

  lemma {:induction false} InsertAtEnd(fs: seq<Finding>, f: Finding)
    requires fs == [] || NoLater(fs[|fs| - 1], f)
    ensures Insert(fs, f) == fs + [f]
  {
  }

  /** What a scan returns can always be masked. */
  lemma {:induction false} ResolvedCanBeMasked(fs: seq<Finding>, length: nat)
    requires AllInText(fs, length)
    ensures AllInText(Resolve(fs), length) && Sorted(Resolve(fs)) == Resolve(fs) && Apart(Sorted(Resolve(fs)))
  {
    ResolvedApart(fs, length);
    SortedFixed(Resolve(fs));
  }

  /** Resolving what a scan returned changes nothing. */
  lemma {:induction false} ResolveIdempotent(fs: seq<Finding>, length: nat)
    requires AllInText(fs, length)
    ensures Resolve(Resolve(fs)) == Resolve(fs)
  {
    ResolvedCanBeMasked(fs, length);
    GreedyFixed(Resolve(fs));
  }

  lemma {:induction false} GreedyFixed(fs: seq<Finding>)
    requires Apart(fs)
    ensures Greedy(fs) == fs
  {
    if fs == [] {
    } else {
      var init, last := fs[..|fs| - 1], fs[|fs| - 1];
      GreedyFixed(init);
      assert init != [] ==> init[|init| - 1] == fs[|fs| - 2];
      assert fs == init + [last];
    }
  }

  // ---- Where the resolution stops short of its description ----

  /** The earlier span wins even when it is the shorter one, and the rest of the longer one is left unmasked. */
  lemma {:induction false} ShorterCanWin(text: string)
    requires |text| == 20
    ensures var short := Finding(Phone, 0, 5, Low);
            var long := Finding(Secret, 3, 20, High);
            && Resolve([long, short]) == [short]
            && AllInText([short], |text|) && Apart([short])
            && SpliceAll(text, [short]) == Token(Phone) + text[5..]
  {
    var short, long := Finding(Phone, 0, 5, Low), Finding(Secret, 3, 20, High);
    SortedTwo(long, short);
    GreedyTwo(short, long);
    SpliceOne(text, short);
  }

  function Length(f: Finding): int {
    f.end - f.start
  }

  predicate Overlap(a: Finding, b: Finding) {
    a.start < b.end && b.start < a.end
  }

  /** Of two overlapping spans of unequal length the longer one is kept exactly if it starts no later. */
  lemma {:induction false} LongerOfTwoKeptIff(a: Finding, b: Finding)
    requires Overlap(a, b) && Length(a) > Length(b)
    ensures Resolve([a, b]) == [a] <==> a.start <= b.start
    ensures Resolve([b, a]) == [a] <==> a.start <= b.start
  {
    if a.start <= b.start {
      SortedTwo(b, a);
      SortedPair(a, b);
      GreedyTwo(a, b);
    } else {
      SortedTwo(a, b);
      SortedPair(b, a);
      GreedyTwo(b, a);
      assert [b][0] != [a][0];
    }
  }

  predicate MoreSevere(s: Severity, t: Severity) {
    (s.High? && !t.High?) || (s.Medium? && t.Low?)
  }

  /** Of two findings on one span the more severe is kept. */
  lemma {:induction false} MoreSevereKept(a: Finding, b: Finding)
    requires a.start == b.start && a.end == b.end && a.start < a.end && MoreSevere(a.severity, b.severity)
    ensures Resolve([a, b]) == [a] == Resolve([b, a])
  {
    SortedPair(a, b);
    SortedTwo(b, a);
    GreedyTwo(a, b);
  }

  /** Of two equally severe findings on one span the one that was found first is kept. */
  lemma {:induction false} FirstFoundKept(a: Finding, b: Finding)
    requires a.start == b.start && a.end == b.end && a.start < a.end && a.severity == b.severity
    ensures Resolve([a, b]) == [a]
  {
    SortedPair(a, b);
    GreedyTwo(a, b);
  }

  /** The mask tells the category: tokens are marked and differ by category. */
  lemma {:induction false} TokensDiffer(c: Category, d: Category)
    ensures |Token(c)| > 2 && Token(c)[0] == '\U{00AB}' && Token(c)[|Token(c)| - 1] == '\U{00BB}'
    ensures Token(c) == Token(d) <==> c == d
  {
    assert Token(c) != Token(d) || Token(c)[1..4] == Token(d)[1..4] || |Token(c)| == |Token(d)| == 4;
  }

  /** Whatever is dropped overlaps a kept span at least as long. */
  ghost predicate KeepsLonger(fs: seq<Finding>) {
    forall f :: f in fs && f !in Resolve(fs) ==>
                  exists g :: g in Resolve(fs) && Overlap(g, f) && Length(g) >= Length(f)
  }

  /** No candidate reaches into a longer one that starts later. */
  ghost predicate NoneReachesIntoLonger(fs: seq<Finding>) {
    forall g, h :: g in fs && h in fs && Overlap(g, h) && g.start < h.start ==> Length(g) >= Length(h)
  }

  ghost predicate Selection(sel: seq<Finding>, fs: seq<Finding>) {
    forall f :: f in sel ==> f in fs
  }

  lemma {:induction false} LongerKept(fs: seq<Finding>, length: nat)
    requires AllInText(fs, length) && NoneReachesIntoLonger(fs)
    ensures KeepsLonger(fs)
  {
    ResolvedApart(fs, length);
    forall f | f in fs && f !in Resolve(fs)
      ensures exists g :: g in Resolve(fs) && Overlap(g, f) && Length(g) >= Length(f)
    {
      ResolvedCoversStarts(fs, f);
      var g :| g in Resolve(fs) && g.start <= f.start < g.end && NoLater(g, f);
      assert InText(f, length) by { var i :| 0 <= i < |fs| && fs[i] == f; }
      assert Overlap(g, f);
    }
  }

  /**
   The resolver keeps the longer span, whichever of the candidates occur, exactly if none reaches
   into a longer later one.
   */
  lemma {:induction false} LongerKeptIff(fs: seq<Finding>, length: nat)
    requires AllInText(fs, length)
    ensures (forall sel :: Selection(sel, fs) ==> KeepsLonger(sel)) <==> NoneReachesIntoLonger(fs)
  {
    if NoneReachesIntoLonger(fs) {
      forall sel | Selection(sel, fs) ensures KeepsLonger(sel) {
        forall i | 0 <= i < |sel| ensures InText(sel[i], length) {
          assert sel[i] in fs;
        }
        LongerKept(sel, length);
      }
    } else {
      var g, h :| g in fs && h in fs && Overlap(g, h) && g.start < h.start && Length(g) < Length(h);
      assert Selection([g, h], fs);
      ShorterDropsLonger(g, h);
    }
  }

  lemma {:induction false} ShorterDropsLonger(g: Finding, h: Finding)
    requires Overlap(g, h) && g.start < h.start && Length(g) < Length(h)
    ensures !KeepsLonger([g, h])
  {
    SortedPair(g, h);
    GreedyTwo(g, h);
    assert Resolve([g, h]) == [g];
    assert h in [g, h] && h !in Resolve([g, h]);
  }

  lemma {:induction false} SortedPair(a: Finding, b: Finding)
    requires NoLater(a, b)
    ensures Sorted([a, b]) == [a, b]
  {
    SortedFixed([a, b]);
  }

  lemma {:induction false} SpliceOne(text: string, f: Finding)
    requires InText(f, |text|) && AllInText([f], |text|) && Apart([f])
    ensures SpliceAll(text, [f]) == Splice(text, f)
  {
    assert [f][..0] == [];
  }

  lemma {:induction false} SortedTwo(a: Finding, b: Finding)
    requires !NoLater(a, b)
    ensures Sorted([a, b]) == [b, a]
  {
    assert [a, b][..1] == [a] && [a][..0] == [];
    assert Sorted([a]) == [a];
    assert Insert([], b) == [b];
    assert Insert([a], b) == [b] + [a];
  }

  lemma {:induction false} GreedyTwo(a: Finding, b: Finding)
    requires b.start < a.end
    ensures Greedy([a, b]) == [a]
  {
    assert [a, b][..1] == [a] && [a][..0] == [];
    assert Greedy([a]) == [a];
  }
}
