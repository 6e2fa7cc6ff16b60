/**
 The versioned block that the plugin maintains inside a user's Markdown file.  A file is a
 sequence of tokens: an opening marker with its version, a closing marker, or a character.
 */
module FencedBlock {
  import opened Common

  datatype Tok = Open(version: nat) | Close | Ch(c: char)

  datatype Range = Range(start: nat, end: nat)
  datatype Fence = Fence(range: Range, version: nat)
  datatype Result = Result(content: seq<Tok>, updated: bool)

  const NEWLINE := Ch('\n')

  function Chars(s: string): seq<Tok> {
    seq(|s|, i requires 0 <= i < |s| => Ch(s[i]))
  }

  /** The block as written to the file. */
  function Block(version: nat, inner: seq<Tok>): seq<Tok> {
    [Open(version), NEWLINE] + inner + [NEWLINE, Close, NEWLINE]
  }

  // ---- Finding the existing block ----

  /** The first opening marker at or after `i`, or the end of the file. */
  function FirstOpen(x: seq<Tok>, i: nat): nat
    requires i <= |x|
    decreases |x| - i
  {
    if i == |x| || x[i].Open? then i else FirstOpen(x, i + 1)
  }

  function FirstClose(x: seq<Tok>, i: nat): nat
    requires i <= |x|
    decreases |x| - i
  {
    if i == |x| || x[i].Close? then i else FirstClose(x, i + 1)
  }

  /** The leftmost match of the marker pattern: an opener, the nearest closer after it, and one newline if present. */
  function FindFence(x: seq<Tok>): Option<Fence> {
    var i := FirstOpen(x, 0);
    FirstOpenSpec(x, 0);
    if i == |x| then None
    else
      var j := FirstClose(x, i);
      FirstCloseSpec(x, i);
      if j == |x| then None
      else Some(Fence(Range(i, if j + 1 < |x| && x[j + 1] == NEWLINE then j + 2 else j + 1), x[i].version))
  }

  lemma {:induction false} FirstOpenSpec(x: seq<Tok>, i: nat)
    requires i <= |x|
    ensures i <= FirstOpen(x, i) <= |x| && (FirstOpen(x, i) < |x| ==> x[FirstOpen(x, i)].Open?)
    ensures forall k :: i <= k < FirstOpen(x, i) ==> !x[k].Open?
    decreases |x| - i
  {
    if i < |x| && !x[i].Open? { FirstOpenSpec(x, i + 1); }
  }

  lemma {:induction false} FirstCloseSpec(x: seq<Tok>, i: nat)
    requires i <= |x|
    ensures i <= FirstClose(x, i) <= |x| && (FirstClose(x, i) < |x| ==> x[FirstClose(x, i)].Close?)
    ensures forall k :: i <= k < FirstClose(x, i) ==> !x[k].Close?
    decreases |x| - i
  {
    if i < |x| && !x[i].Close? { FirstCloseSpec(x, i + 1); }
  }

  /** The range runs from the first opener of the file to the nearest closer after it, taking one newline along. */
  ghost predicate FenceAt(x: seq<Tok>, r: Range, j: nat) {
    && r.start < j < |x| && x[r.start].Open? && x[j].Close?
    && (forall k :: 0 <= k < r.start ==> !x[k].Open?)
    && (forall k :: r.start <= k < j ==> !x[k].Close?)
    && r.end == if j + 1 < |x| && x[j + 1] == NEWLINE then j + 2 else j + 1
  }

  /** Some opener has a later closer. */
  ghost predicate HasPair(x: seq<Tok>) {
    exists i, j :: 0 <= i < j < |x| && x[i].Open? && x[j].Close?
  }

  lemma {:induction false} FindFenceSpec(x: seq<Tok>)
    ensures FindFence(x).Some? <==> HasPair(x)
    ensures FindFence(x).Some? ==> exists j :: FenceAt(x, FindFence(x).value.range, j)
    ensures FindFence(x).Some? ==> FindFence(x).value.range.start < FindFence(x).value.range.end <= |x|
    ensures FindFence(x).Some? ==> x[FindFence(x).value.range.start] == Open(FindFence(x).value.version)
  {
    var i := FirstOpen(x, 0);
    FirstOpenSpec(x, 0);
    if i < |x| {
      FirstCloseSpec(x, i);
      var j := FirstClose(x, i);
      if j < |x| { assert FenceAt(x, FindFence(x).value.range, j); }
    }
  }

  // ---- Finding a pre-fence section ----

  /** The file split at newlines. */
  function Lines(x: seq<Tok>): seq<seq<Tok>>
    ensures |Lines(x)| > 0
  {
    if x == [] then [[]]
    else
      var before := Lines(x[..|x| - 1]);
      var t := x[|x| - 1];
      if t == NEWLINE then before + [[]]
      else before[|before| - 1 := before[|before| - 1] + [t]]
  }

  /** The offset at which line `k` starts, counting one newline per earlier line. */
  function Offset(lines: seq<seq<Tok>>, k: nat): nat
    requires k <= |lines|
  {
    if k == 0 then 0 else Offset(lines, k - 1) + |lines[k - 1]| + 1
  }

  predicate StartsWith(line: seq<Tok>, s: string) {
    Chars(s) <= line
  }

  function StripCR(line: seq<Tok>): seq<Tok> {
    if line != [] && line[|line| - 1] == Ch('\r') then line[..|line| - 1] else line
  }

  /** The white space that `trim` removes. */
  predicate IsBlank(t: Tok) {
    t.Ch? && (t.c in {' ', '\t', '\n', '\r', '\U{0B}', '\U{0C}', '\U{A0}', '\U{1680}', '\U{2028}', '\U{2029}',
                      '\U{202F}', '\U{205F}', '\U{3000}', '\U{FEFF}'} || '\U{2000}' <= t.c <= '\U{200A}')
  }

  predicate BlankLine(line: seq<Tok>) {
    forall i :: 0 <= i < |line| ==> IsBlank(line[i])
  }

  /** A `---` rule, blanks around it allowed. */
  predicate RuleLine(line: seq<Tok>) {
    exists a :: 0 <= a <= |line| - 3 && line[a..a + 3] == Chars("---") &&
                BlankLine(line[..a]) && BlankLine(line[a + 3..])
  }

  function Lower(t: Tok): Tok {
    if t.Ch? && 'A' <= t.c <= 'Z' then Ch((t.c as int + 32) as char) else t
  }

  /** The text contains `s`, both lower-cased. */
  predicate Mentions(x: seq<Tok>, s: string) {
    exists a :: 0 <= a <= |x| - |s| && SpelledAt(x, s, a)
  }

  predicate SpelledAt(x: seq<Tok>, s: string, a: nat)
    requires a + |s| <= |x|
  {
    forall k :: 0 <= k < |s| ==> Lower(x[a + k]) == Lower(Ch(s[k]))
  }

  /** The search for the token ignores case, and finds it wherever it stands. */
  lemma {:induction false} MentionsIgnoresCase(x: seq<Tok>, s: string)
    ensures Mentions(seq(|x|, i requires 0 <= i < |x| => Lower(x[i])), s) <==> Mentions(x, s)
  {
    var y := seq(|x|, i requires 0 <= i < |x| => Lower(x[i]));
    assert forall i :: 0 <= i < |x| ==> Lower(y[i]) == Lower(x[i]);
    forall a | 0 <= a <= |x| - |s| ensures SpelledAt(y, s, a) <==> SpelledAt(x, s, a) {}
  }

  predicate SameLetter(c: char, d: char) {
    || c == d
    || ('a' <= c <= 'z' && 'A' <= d <= 'Z' && c as int == d as int + 32)
    || ('a' <= d <= 'z' && 'A' <= c <= 'Z' && d as int == c as int + 32)
  }

  lemma {:induction false} MentionsText(a: seq<Tok>, t: string, s: string, b: seq<Tok>)
    requires |t| == |s| && forall k :: 0 <= k < |s| ==> SameLetter(t[k], s[k])
    ensures Mentions(a + Chars(t) + b, s)
  {
    var x := a + Chars(t) + b;
    forall k | 0 <= k < |s| ensures Lower(x[|a| + k]) == Lower(Ch(s[k])) {
      assert x[|a| + k] == Ch(t[k]);
      assert SameLetter(t[k], s[k]);
    }
    assert SpelledAt(x, s, |a|);
  }

  predicate Heading(line: seq<Tok>, prefix: string) {
    StartsWith(StripCR(line), prefix)
  }

  /** Line `p` is a rule with only blank lines between it and line `h`. */
  ghost predicate RuleAbove(lines: seq<seq<Tok>>, p: nat, h: nat)
    requires p < h <= |lines|
  {
    RuleLine(lines[p]) && forall k :: p < k < h ==> BlankLine(lines[k])
  }

  /** Everything `FindLegacyRange` promises about the lines `s`, `h`, `e` behind a range. */
  ghost predicate LegacyLines(lines: seq<seq<Tok>>, prefix: string, s: nat, h: nat, e: nat) {
    && s <= h < e <= |lines|
    && Heading(lines[h], prefix) && (forall k :: 0 <= k < h ==> !Heading(lines[k], prefix))
    && (if s < h then RuleAbove(lines, s, h) else forall p :: 0 <= p < h ==> !RuleAbove(lines, p, h))
    && (forall k :: h < k < e ==> !StartsWith(lines[k], "## "))
    && (e < |lines| ==> StartsWith(lines[e], "## "))
  }

  predicate AtLineStart(x: seq<Tok>, i: nat) {
    i == 0 || (i <= |x| && x[i - 1] == NEWLINE)
  }

  lemma {:induction false} OffsetEnd(x: seq<Tok>)
    ensures Offset(Lines(x), |Lines(x)|) == |x| + 1
  {
    if x == [] {
    } else {
      var before, after := Lines(x[..|x| - 1]), Lines(x);
      var last := |before| - 1;
      OffsetEnd(x[..|x| - 1]);
      assert before[..last] == after[..last];
      OffsetPrefix(before, after, last);
      if x[|x| - 1] == NEWLINE {
        assert after[last] == before[last] && after[last + 1] == [];
      }
    }
  }

  lemma {:induction false} OffsetPrefix(a: seq<seq<Tok>>, b: seq<seq<Tok>>, k: nat)
    requires k <= |a| && k <= |b| && a[..k] == b[..k]
    ensures Offset(a, k) == Offset(b, k)
  {
    if k == 0 {
    } else {
      assert a[..k - 1] == a[..k][..k - 1] && b[..k - 1] == b[..k][..k - 1];
      assert a[k - 1] == a[..k][k - 1] && b[k - 1] == b[..k][k - 1];
      OffsetPrefix(a, b, k - 1);
    }
  }

  lemma {:induction false} OffsetIsLineStart(x: seq<Tok>, k: nat)
    requires k < |Lines(x)|
    ensures Offset(Lines(x), k) <= |x| && AtLineStart(x, Offset(Lines(x), k))
  {
    if x == [] {
    } else {
      var init := x[..|x| - 1];
      var before, after := Lines(init), Lines(x);
      if k < |before| {
        assert before[..k] == after[..k];
        OffsetPrefix(before, after, k);
        OffsetIsLineStart(init, k);
      } else {
        OffsetPrefix(before, after, |before|);
        OffsetEnd(init);
      }
    }
  }

  /** The lines are the text between newlines, each found at its offset. */
  lemma {:induction false} LinesAreTheText(x: seq<Tok>, k: nat)
    requires k < |Lines(x)|
    ensures var line, start := Lines(x)[k], Offset(Lines(x), k);
            NEWLINE !in line && start + |line| <= |x| && x[start..start + |line|] == line
  {
    if x == [] {
    } else {
      var init, t := x[..|x| - 1], x[|x| - 1];
      var before, after := Lines(init), Lines(x);
      var last := |before| - 1;
      assert x == init + [t];
      if k < last || (k == last && t == NEWLINE) {
        LinesAreTheText(init, k);
        assert before[..k] == after[..k];
        OffsetPrefix(before, after, k);
      } else if k == last {
        LinesAreTheText(init, k);
        OffsetPrefix(before, after, k);
        OffsetEnd(init);
      } else {
        OffsetEnd(x);
      }
    }
  }

  lemma {:induction false} OffsetGrows(lines: seq<seq<Tok>>, j: nat, k: nat)
    requires j <= k <= |lines|
    ensures Offset(lines, j) + (k - j) <= Offset(lines, k)
  {
    if j < k { OffsetGrows(lines, j, k - 1); }
  }

  method FindHeading(lines: seq<seq<Tok>>, prefix: string) returns (h: nat)
    ensures h == FirstHeading(lines, prefix, 0)
  {
    h := 0;
    while h < |lines| && !Heading(lines[h], prefix)
      invariant h <= |lines| && FirstHeading(lines, prefix, 0) == FirstHeading(lines, prefix, h)
    {
      h := h + 1;
    }
  }

  method FindCut(lines: seq<seq<Tok>>, h: nat) returns (s: nat)
    requires h < |lines|
    ensures s == CutLine(lines, h)
  {
    var probe := h - 1;
    while probe >= 0 && BlankLine(lines[probe])
      invariant -1 <= probe < h && BackOverBlanks(lines, h - 1) == BackOverBlanks(lines, probe)
      decreases probe
    {
      probe := probe - 1;
    }
    s := if probe >= 0 && RuleLine(lines[probe]) then probe else h;
  }

  method FindNextSection(lines: seq<seq<Tok>>, h: nat) returns (e: nat)
    requires h < |lines|
    ensures e == NextSection(lines, h + 1)
  {
    e := h + 1;
    while e < |lines| && !StartsWith(lines[e], "## ")
      invariant h < e <= |lines| && NextSection(lines, h + 1) == NextSection(lines, e)
    {
      e := e + 1;
    }
  }

  /** The search: heading forward, rule backward, next section forward, then the token. */
  method FindLegacyRange(x: seq<Tok>, prefix: string, token: string) returns (r: Option<Range>)
    ensures r == Legacy(x, prefix, token)
  {
    var lines := Lines(x);
    var h := FindHeading(lines, prefix);
    if h == |lines| { return None; }
    FirstHeadingSpec(lines, prefix, 0);
    var s := FindCut(lines, h);
    var e := FindNextSection(lines, h);
    assert FindSection(lines, prefix) == Some(Section(s, h, e));
    var range := SectionRange(x, s, e);
    if !Mentions(x[range.start..range.end], token) { return None; }
    r := Some(range);
  }

  /** Lines `s` to `e` as offsets, clamped to the text. */
  function SectionRange(x: seq<Tok>, s: nat, e: nat): (r: Range)
    requires s < e <= |Lines(x)|
    ensures r.start <= r.end <= |x|
  {
    LegacyInText(x, s, e);
    var end := Offset(Lines(x), e);
    Range(Offset(Lines(x), s), if end < |x| then end else |x|)
  }

  function FirstHeading(lines: seq<seq<Tok>>, prefix: string, i: nat): nat
    requires i <= |lines|
    decreases |lines| - i
  {
    if i == |lines| || Heading(lines[i], prefix) then i else FirstHeading(lines, prefix, i + 1)
  }

  function BackOverBlanks(lines: seq<seq<Tok>>, i: int): int
    requires -1 <= i < |lines|
    decreases i + 1
  {
    if i >= 0 && BlankLine(lines[i]) then BackOverBlanks(lines, i - 1) else i
  }

  function NextSection(lines: seq<seq<Tok>>, i: nat): nat
    requires i <= |lines|
    decreases |lines| - i
  {
    if i == |lines| || StartsWith(lines[i], "## ") then i else NextSection(lines, i + 1)
  }

  lemma {:induction false} LegacyInText(x: seq<Tok>, s: nat, e: nat)
    requires s < e <= |Lines(x)|
    ensures Offset(Lines(x), s) <= |x| && Offset(Lines(x), s) < Offset(Lines(x), e)
  {
    OffsetIsLineStart(x, s);
    OffsetGrows(Lines(x), s, e);
  }

  lemma {:induction false} FirstHeadingSpec(lines: seq<seq<Tok>>, prefix: string, i: nat)
    requires i <= |lines|
    ensures var h := FirstHeading(lines, prefix, i);
            && i <= h <= |lines| && (h < |lines| ==> Heading(lines[h], prefix))
            && forall k :: i <= k < h ==> !Heading(lines[k], prefix)
    decreases |lines| - i
  {
    if i < |lines| && !Heading(lines[i], prefix) { FirstHeadingSpec(lines, prefix, i + 1); }
  }

  lemma {:induction false} BackOverBlanksSpec(lines: seq<seq<Tok>>, i: int)
    requires -1 <= i < |lines|
    ensures var p := BackOverBlanks(lines, i);
            && -1 <= p <= i && (p >= 0 ==> !BlankLine(lines[p]))
            && forall k :: p < k <= i ==> BlankLine(lines[k])
    decreases i + 1
  {
    if i >= 0 && BlankLine(lines[i]) { BackOverBlanksSpec(lines, i - 1); }
  }

  lemma {:induction false} NextSectionSpec(lines: seq<seq<Tok>>, i: nat)
    requires i <= |lines|
    ensures var e := NextSection(lines, i);
            && i <= e <= |lines| && (e < |lines| ==> StartsWith(lines[e], "## "))
            && forall k :: i <= k < e ==> !StartsWith(lines[k], "## ")
    decreases |lines| - i
  {
    if i < |lines| && !StartsWith(lines[i], "## ") { NextSectionSpec(lines, i + 1); }
  }

  /** The line from which the section is cut: the rule above its heading, or the heading. */
  function CutLine(lines: seq<seq<Tok>>, h: nat): (s: nat)
    requires h < |lines|
    ensures s <= h
  {
    BackOverBlanksSpec(lines, h - 1);
    var p := BackOverBlanks(lines, h - 1);
    if p >= 0 && RuleLine(lines[p]) then p else h
  }

  /** The lines of a section: from its cut to the next section. */
  datatype Section = Section(s: nat, h: nat, e: nat)

  function FindSection(lines: seq<seq<Tok>>, prefix: string): (r: Option<Section>)
    ensures r.Some? ==> r.value.s <= r.value.h < r.value.e <= |lines|
  {
    var h := FirstHeading(lines, prefix, 0);
    FirstHeadingSpec(lines, prefix, 0);
    if h == |lines| then None
    else
      NextSectionSpec(lines, h + 1);
      Some(Section(CutLine(lines, h), h, NextSection(lines, h + 1)))
  }

  function Legacy(x: seq<Tok>, prefix: string, token: string): Option<Range> {
    var found := FindSection(Lines(x), prefix);
    if found.None? then None
    else
      var r := SectionRange(x, found.value.s, found.value.e);
      if Mentions(x[r.start..r.end], token) then Some(r) else None
  }

  /** The section `c` of the file covers the range `r`. */
  ghost predicate LegacyAt(x: seq<Tok>, prefix: string, r: Range, c: Section) {
    LegacyLines(Lines(x), prefix, c.s, c.h, c.e) && r == SectionRange(x, c.s, c.e)
  }

  /** The range of one section, cut from the rule above it, that mentions the token. */
  ghost predicate LegacySection(x: seq<Tok>, prefix: string, token: string, r: Range) {
    (exists c :: LegacyAt(x, prefix, r, c)) && r.start <= r.end <= |x| && Mentions(x[r.start..r.end], token)
  }

  lemma {:induction false} RuleIsNotBlank(line: seq<Tok>)
    requires RuleLine(line)
    ensures !BlankLine(line)
  {
    var a :| 0 <= a <= |line| - 3 && line[a..a + 3] == Chars("---") && BlankLine(line[..a]) && BlankLine(line[a + 3..]);
    assert line[a] == line[a..a + 3][0] == Ch('-');
  }

  /** The rule cut with a section is the only line it can be. */
  lemma {:induction false} CutLineExact(lines: seq<seq<Tok>>, h: nat, s: nat)
    requires h < |lines| && s <= h
    ensures s == CutLine(lines, h) <==>
            if s < h then RuleAbove(lines, s, h) else forall p :: 0 <= p < h ==> !RuleAbove(lines, p, h)
  {
    BackOverBlanksSpec(lines, h - 1);
    var p := BackOverBlanks(lines, h - 1);
    forall q | 0 <= q < h && RuleAbove(lines, q, h) ensures q == p {
      RuleIsNotBlank(lines[q]);
    }
    if p >= 0 && RuleLine(lines[p]) {
      assert RuleAbove(lines, p, h);
    }
  }

  lemma {:induction false} FoundIsSection(lines: seq<seq<Tok>>, prefix: string)
    requires FindSection(lines, prefix).Some?
    ensures var c := FindSection(lines, prefix).value; LegacyLines(lines, prefix, c.s, c.h, c.e)
  {
    var c := FindSection(lines, prefix).value;
    FirstHeadingSpec(lines, prefix, 0);
    NextSectionSpec(lines, c.h + 1);
    CutLineExact(lines, c.h, c.s);
  }

  lemma {:induction false} OneSection(lines: seq<seq<Tok>>, prefix: string, c: Section, d: Section)
    requires LegacyLines(lines, prefix, c.s, c.h, c.e) && LegacyLines(lines, prefix, d.s, d.h, d.e)
    ensures c == d
  {
    assert c.h == d.h;
    assert c.e == d.e;
    CutLineExact(lines, c.h, c.s);
    CutLineExact(lines, c.h, d.s);
  }

  /** The three searches find exactly the lines of the section. */
  lemma {:induction false} SectionLinesExact(lines: seq<seq<Tok>>, prefix: string, c: Section)
    ensures LegacyLines(lines, prefix, c.s, c.h, c.e) <==> FindSection(lines, prefix) == Some(c)
  {
    var found := FindSection(lines, prefix);
    if found.Some? {
      FoundIsSection(lines, prefix);
      if LegacyLines(lines, prefix, c.s, c.h, c.e) { OneSection(lines, prefix, c, found.value); }
    } else {
      FirstHeadingSpec(lines, prefix, 0);
    }
  }

  /** The search finds exactly the section there is. */
  lemma {:induction false} LegacyExact(x: seq<Tok>, prefix: string, token: string, r: Range)
    ensures Legacy(x, prefix, token) == Some(r) <==> LegacySection(x, prefix, token, r)
  {
    var found := FindSection(Lines(x), prefix);
    if found.Some? {
      SectionLinesExact(Lines(x), prefix, found.value);
      assert LegacyAt(x, prefix, SectionRange(x, found.value.s, found.value.e), found.value);
    }
    forall c | LegacyAt(x, prefix, r, c) ensures found == Some(c) {
      SectionLinesExact(Lines(x), prefix, c);
    }
  }

  /** Whole lines: a range starts at a line boundary and ends at one or at the end of the file. */
  lemma {:induction false} SectionIsWholeLines(x: seq<Tok>, s: nat, e: nat)
    requires s < e <= |Lines(x)|
    ensures var r := SectionRange(x, s, e);
            && AtLineStart(x, r.start) && r.start == Offset(Lines(x), s)
            && (if e < |Lines(x)| then r.end == Offset(Lines(x), e) && AtLineStart(x, r.end) else r.end == |x|)
  {
    OffsetIsLineStart(x, s);
    if e < |Lines(x)| { OffsetIsLineStart(x, e); } else { OffsetEnd(x); }
  }

  /** A legacy range starts at a line boundary and ends at one or at the end of the file. */
  lemma {:induction false} LegacyIsWholeLines(x: seq<Tok>, prefix: string, token: string)
    requires Legacy(x, prefix, token).Some?
    ensures Legacy(x, prefix, token).value.start <= Legacy(x, prefix, token).value.end <= |x|
    ensures AtLineStart(x, Legacy(x, prefix, token).value.start)
    ensures Legacy(x, prefix, token).value.end == |x| || AtLineStart(x, Legacy(x, prefix, token).value.end)
  {
    var r := Legacy(x, prefix, token).value;
    LegacyExact(x, prefix, token, r);
    var c :| LegacyAt(x, prefix, r, c);
    SectionIsWholeLines(x, c.s, c.e);
  }
}
