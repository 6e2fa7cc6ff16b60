/** Splicing the current version of the block into a file, and what repeated splicing does. */
module BlockSplice {
  import opened Common
  import opened FencedBlock

  const TOKEN := "memclaw_"

  /** The blank line between the last line of the file and an appended block. */
  function Separator(x: seq<Tok>): seq<Tok> {
    if x == [] || EndsBlank(x) then []
    else if x[|x| - 1] == NEWLINE then [NEWLINE]
    else [NEWLINE, NEWLINE]
  }

  /** The text a splice keeps before the block it writes. */
  function Before(x: seq<Tok>, prefix: string): seq<Tok> {
    FindFenceSpec(x);
    if FindFence(x).Some? then x[..FindFence(x).value.range.start]
    else if Legacy(x, prefix, TOKEN).Some? then
      LegacyIsWholeLines(x, prefix, TOKEN);
      x[..Legacy(x, prefix, TOKEN).value.start]
    else x + Separator(x)
  }

  /** The text a splice keeps after the block it writes. */
  function After(x: seq<Tok>, prefix: string): seq<Tok> {
    FindFenceSpec(x);
    if FindFence(x).Some? then x[FindFence(x).value.range.end..]
    else if Legacy(x, prefix, TOKEN).Some? then
      LegacyIsWholeLines(x, prefix, TOKEN);
      x[Legacy(x, prefix, TOKEN).value.end..]
    else []
  }

  function Splice(x: seq<Tok>, version: nat, inner: seq<Tok>, prefix: string, force: bool): Result {
    if FindFence(x).Some? && !force && FindFence(x).value.version == version then Result(x, false)
    else Result(Before(x, prefix) + Block(version, inner) + After(x, prefix), true)
  }

  /**
   Exactly one kind of text is removed; only an append adds a separator, the shortest with which a
   blank line ends the text before the block.
   */
  ghost predicate Removed(x: seq<Tok>, prefix: string, r: Range, sep: seq<Tok>) {
    if HasPair(x) then sep == [] && exists j :: FenceAt(x, r, j)
    else if exists g :: LegacySection(x, prefix, TOKEN, g) then sep == [] && LegacySection(x, prefix, TOKEN, r)
    else
      && r == Range(|x|, |x|)
      && (forall k :: 0 <= k < |sep| ==> sep[k] == NEWLINE)
      && (if x == [] then sep == [] else EndsBlank(x + sep))
      && (forall n :: 0 <= n < |sep| ==> !EndsBlank(x + sep[..n]))
  }

  predicate EndsBlank(x: seq<Tok>) {
    |x| >= 2 && x[|x| - 2] == NEWLINE && x[|x| - 1] == NEWLINE
  }

  /**
   `y` is `x` with the range `r` replaced by `sep`, then the opener, the text and the closer on
   lines of their own.
   */
  predicate Replaced(x: seq<Tok>, r: Range, sep: seq<Tok>, version: nat, inner: seq<Tok>, y: seq<Tok>) {
    && r.start <= r.end <= |x|
    && y == x[..r.start] + sep + [Open(version), NEWLINE] + inner + [NEWLINE, Close, NEWLINE] + x[r.end..]
  }

  /** The splice keeps exactly the text around the range `r`, which may be replaced, and adds `sep`. */
  ghost predicate Keeps(x: seq<Tok>, prefix: string, r: Range, sep: seq<Tok>) {
    && Removed(x, prefix, r, sep) && r.start <= r.end <= |x|
    && Before(x, prefix) == x[..r.start] + sep && After(x, prefix) == x[r.end..]
  }

  lemma {:induction false} FenceRemoved(x: seq<Tok>, prefix: string)
    requires FindFence(x).Some?
    ensures Keeps(x, prefix, FindFence(x).value.range, [])
  {
    FindFenceSpec(x);
  }

  lemma {:induction false} SectionRemoved(x: seq<Tok>, prefix: string)
    requires FindFence(x).None? && Legacy(x, prefix, TOKEN).Some?
    ensures Keeps(x, prefix, Legacy(x, prefix, TOKEN).value, [])
  {
    FindFenceSpec(x);
    LegacyIsWholeLines(x, prefix, TOKEN);
    LegacyExact(x, prefix, TOKEN, Legacy(x, prefix, TOKEN).value);
  }

  lemma {:induction false} NothingRemoved(x: seq<Tok>, prefix: string)
    requires FindFence(x).None? && Legacy(x, prefix, TOKEN).None?
    ensures Keeps(x, prefix, Range(|x|, |x|), Separator(x))
  {
    FindFenceSpec(x);
    forall g ensures !LegacySection(x, prefix, TOKEN, g) { LegacyExact(x, prefix, TOKEN, g); }
  }

  lemma {:induction false} SomethingKept(x: seq<Tok>, prefix: string) returns (r: Range, sep: seq<Tok>)
    ensures Keeps(x, prefix, r, sep)
  {
    if FindFence(x).Some? {
      FenceRemoved(x, prefix);
      r, sep := FindFence(x).value.range, [];
    } else if Legacy(x, prefix, TOKEN).Some? {
      SectionRemoved(x, prefix);
      r, sep := Legacy(x, prefix, TOKEN).value, [];
    } else {
      NothingRemoved(x, prefix);
      r, sep := Range(|x|, |x|), Separator(x);
    }
  }

  lemma {:induction false} Spelled(a: seq<Tok>, sep: seq<Tok>, version: nat, inner: seq<Tok>, b: seq<Tok>)
    ensures (a + sep) + Block(version, inner) + b ==
            a + sep + [Open(version), NEWLINE] + inner + [NEWLINE, Close, NEWLINE] + b
  {
  }

  /** Everything outside one fence, one legacy section or the end of the file is kept exactly. */
  lemma {:induction false} KeepsTheRest(x: seq<Tok>, version: nat, inner: seq<Tok>, prefix: string, force: bool)
    ensures var r := Splice(x, version, inner, prefix, force);
            if r.updated
            then exists g, sep :: Removed(x, prefix, g, sep) && Replaced(x, g, sep, version, inner, r.content)
            else r.content == x && !force && exists g, j :: FenceAt(x, g, j) && x[g.start] == Open(version)
  {
    var r := Splice(x, version, inner, prefix, force);
    if r.updated {
      var g, sep := SomethingKept(x, prefix);
      Spelled(x[..g.start], sep, version, inner, x[g.end..]);
      assert Replaced(x, g, sep, version, inner, r.content);
    } else {
      FindFenceSpec(x);
      var j :| FenceAt(x, FindFence(x).value.range, j);
    }
  }

  // ---- Where the written block is found again ----

  predicate NoOpen(x: seq<Tok>) {
    forall k :: 0 <= k < |x| ==> !x[k].Open?
  }

  /** The block's own text holds no marker. */
  predicate Plain(inner: seq<Tok>) {
    forall k :: 0 <= k < |inner| ==> inner[k].Ch?
  }

  function Written(a: seq<Tok>, version: nat, inner: seq<Tok>, b: seq<Tok>): seq<Tok> {
    a + Block(version, inner) + b
  }

  /**
   The next search starts at the first opener before the block if there is one, else at the block;
   it ends with the block.
   */
  lemma {:induction false} FoundAgain(a: seq<Tok>, version: nat, inner: seq<Tok>, b: seq<Tok>, i: nat)
    requires Plain(inner) && i <= |a| && NoOpen(a[..i])
    requires i < |a| ==> a[i].Open? && forall k :: i <= k < |a| ==> !a[k].Close?
    ensures FindFence(Written(a, version, inner, b)) ==
            Some(Fence(Range(i, |a| + |Block(version, inner)|), if i < |a| then a[i].version else version))
  {
    var y := Written(a, version, inner, b);
    var last := |a| + |Block(version, inner)| - 2;
    Anatomy(a, version, inner, b);
    assert forall k :: 0 <= k < i ==> y[k] == a[..i][k];
    assert forall k :: i <= k < |a| ==> y[k] == a[k];
    FindFenceSpec(y);
    assert y[i].Open? && y[last].Close?;
    var j :| FenceAt(y, FindFence(y).value.range, j);
  }

  lemma {:induction false} Anatomy(a: seq<Tok>, version: nat, inner: seq<Tok>, b: seq<Tok>)
    requires Plain(inner)
    ensures var y, last := Written(a, version, inner, b), |a| + |Block(version, inner)| - 2;
            && |y| == last + 2 + |b| && last == |a| + |inner| + 3
            && y[|a|] == Open(version) && y[last] == Close && y[last + 1] == NEWLINE
            && (forall k :: |a| < k < last ==> y[k].Ch?)
            && y[..|a|] == a && y[last + 2..] == b
  {
  }

  /** The fence found at `start` holds `inner` between its markers, on lines of its own. */
  predicate Holds(y: seq<Tok>, start: nat, version: nat, inner: seq<Tok>) {
    && start + |inner| + 5 <= |y|
    && y[start] == Open(version) && y[start + 1] == NEWLINE
    && y[start + 2..start + 2 + |inner|] == inner
    && y[start + 2 + |inner|] == NEWLINE && y[start + 3 + |inner|] == Close && y[start + 4 + |inner|] == NEWLINE
  }

  /** What a splice wrote is what the next search finds: one fence of its version around its text. */
  lemma {:induction false} FoundWithItsText(x: seq<Tok>, version: nat, inner: seq<Tok>, prefix: string, force: bool)
    requires Plain(inner) && Splice(x, version, inner, prefix, force).updated && NoOpen(Before(x, prefix))
    ensures var y := Splice(x, version, inner, prefix, force).content;
            var start := |Before(x, prefix)|;
            && Holds(y, start, version, inner)
            && FenceAt(y, Range(start, start + |inner| + 5), start + |inner| + 3)
            && FindFence(y) == Some(Fence(Range(start, start + |inner| + 5), version))
  {
    var a, b := Before(x, prefix), After(x, prefix);
    var y := Written(a, version, inner, b);
    Anatomy(a, version, inner, b);
    FoundAgain(a, version, inner, b, |a|);
    TextBetween(a, version, inner, b);
    assert forall k :: 0 <= k < |a| ==> y[k] == a[k];
  }

  lemma {:induction false} TextBetween(a: seq<Tok>, version: nat, inner: seq<Tok>, b: seq<Tok>)
    ensures Holds(Written(a, version, inner, b), |a|, version, inner)
  {
  }

  /** In a file without a fence no closer follows an opener. */
  lemma {:induction false} NoneFound(x: seq<Tok>, i: nat, k: nat)
    requires FindFence(x).None? && i <= k < |x| && x[i].Open?
    ensures !x[k].Close?
  {
    FindFenceSpec(x);
  }

  /** Without a fence, the text kept before the block is text of the file, then newlines. */
  lemma {:induction false} BeforeIsOldText(x: seq<Tok>, prefix: string, k: nat)
    requires k < |Before(x, prefix)|
    ensures if k < |x| then Before(x, prefix)[k] == x[k] else Before(x, prefix)[k] == NEWLINE
  {
    FindFenceSpec(x);
    if FindFence(x).None? && Legacy(x, prefix, TOKEN).Some? { LegacyIsWholeLines(x, prefix, TOKEN); }
  }

  /** The first splice writes the block after text whose first opener, if any, has no closer. */
  lemma {:induction false} BeforeShape(x: seq<Tok>, prefix: string, i: nat)
    requires i == FirstOpen(Before(x, prefix), 0)
    ensures i <= |Before(x, prefix)| && NoOpen(Before(x, prefix)[..i])
    ensures FindFence(x).Some? ==> i == |Before(x, prefix)|
    ensures i < |Before(x, prefix)| ==>
              Before(x, prefix)[i].Open? && forall k :: i <= k < |Before(x, prefix)| ==> !Before(x, prefix)[k].Close?
  {
    var a := Before(x, prefix);
    FirstOpenSpec(a, 0);
    FindFenceSpec(x);
    if FindFence(x).Some? {
      var j :| FenceAt(x, FindFence(x).value.range, j);
      assert forall k :: 0 <= k < |a| ==> a[k] == x[k];
    } else if i < |a| {
      BeforeIsOldText(x, prefix, i);
      forall k | i <= k < |a| ensures !a[k].Close? {
        BeforeIsOldText(x, prefix, k);
        if k < |x| {
          NoneFound(x, i, k);
        }
      }
    }
  }

  // ---- Repeated splicing ----

  /** An opener that the first splice leaves standing before its block, of a version other than the block's. */
  predicate Dangling(x: seq<Tok>, version: nat, prefix: string) {
    var a := Before(x, prefix);
    var i := FirstOpen(a, 0);
    FirstOpenSpec(a, 0);
    FindFence(x).None? && i < |a| && a[i].version != version
  }

  /** A second splice changes nothing exactly if no such opener was left. */
  lemma {:induction false} SecondSplice(x: seq<Tok>, version: nat, inner: seq<Tok>, prefix: string)
    requires Plain(inner)
    ensures var y := Splice(x, version, inner, prefix, false).content;
            Splice(y, version, inner, prefix, false) == Result(y, false) <==> !Dangling(x, version, prefix)
  {
    if Splice(x, version, inner, prefix, false).updated {
      var a := Before(x, prefix);
      var i := FirstOpen(a, 0);
      BeforeShape(x, prefix, i);
      FoundAgain(a, version, inner, After(x, prefix), i);
    }
  }

  /** If every opener of the file has a later closer, the second splice is a no-op. */
  lemma {:induction false} ClosedFilesSettleAtOnce(x: seq<Tok>, version: nat, inner: seq<Tok>, prefix: string)
    requires Plain(inner)
    requires forall i :: 0 <= i < |x| && x[i].Open? ==> HasCloser(x, i)
    ensures var y := Splice(x, version, inner, prefix, false).content;
            Splice(y, version, inner, prefix, false) == Result(y, false)
  {
    SecondSplice(x, version, inner, prefix);
    var a := Before(x, prefix);
    var i := FirstOpen(a, 0);
    BeforeShape(x, prefix, i);
    if FindFence(x).None? && i < |a| {
      BeforeIsOldText(x, prefix, i);
      FindFenceSpec(x);
    }
  }

  ghost predicate HasCloser(x: seq<Tok>, i: nat) {
    exists j :: i < j < |x| && x[j].Close?
  }

  /** A fence with a closed opener settles in one splice. */
  lemma {:induction false} FencedSettles(x: seq<Tok>, version: nat, inner: seq<Tok>, prefix: string)
    requires Plain(inner) && FindFence(x).Some?
    ensures var y := Splice(x, version, inner, prefix, false).content;
            Splice(y, version, inner, prefix, false) == Result(y, false)
  {
    SecondSplice(x, version, inner, prefix);
  }

  /** Every file is at a fixed point after two splices. */
  lemma {:induction false} TwoSplicesSettle(x: seq<Tok>, version: nat, inner: seq<Tok>, prefix: string)
    requires Plain(inner)
    ensures var y := Splice(x, version, inner, prefix, false).content;
            var z := Splice(y, version, inner, prefix, false).content;
            Splice(z, version, inner, prefix, false) == Result(z, false)
  {
    var y := Splice(x, version, inner, prefix, false).content;
    HasFenceAfter(x, version, inner, prefix, false);
    FencedSettles(y, version, inner, prefix);
  }

  lemma {:induction false} HasFenceAfter(x: seq<Tok>, version: nat, inner: seq<Tok>, prefix: string, force: bool)
    requires Plain(inner)
    ensures FindFence(Splice(x, version, inner, prefix, force).content).Some?
  {
    if Splice(x, version, inner, prefix, force).updated {
      BeforeShape(x, prefix, FirstOpen(Before(x, prefix), 0));
      FoundAgain(Before(x, prefix), version, inner, After(x, prefix), FirstOpen(Before(x, prefix), 0));
    }
  }

  /** A splice finds its own block again, whole, if it left no opener before it. */
  lemma {:induction false} FindsOwnBlock(x: seq<Tok>, version: nat, inner: seq<Tok>, prefix: string)
    requires Plain(inner) && NoOpen(Before(x, prefix))
    ensures var y := Written(Before(x, prefix), version, inner, After(x, prefix));
            && FindFence(y).Some? && FindFence(y).value.version == version
            && Before(y, prefix) == Before(x, prefix) && After(y, prefix) == After(x, prefix)
  {
    var a, b := Before(x, prefix), After(x, prefix);
    FoundAgain(a, version, inner, b, |a|);
    Anatomy(a, version, inner, b);
  }

  /** Forcing a second rewrite of a fenced file reproduces it. */
  lemma {:induction false} ForcedRewriteIsStable(x: seq<Tok>, version: nat, inner: seq<Tok>, prefix: string)
    requires Plain(inner) && FindFence(x).Some?
    ensures var y := Splice(x, version, inner, prefix, true).content;
            Splice(y, version, inner, prefix, true) == Result(y, true)
  {
    BeforeShape(x, prefix, FirstOpen(Before(x, prefix), 0));
    FindsOwnBlock(x, version, inner, prefix);
  }

  /** Upgrading through an intermediate version gives what upgrading directly gives. */
  lemma {:induction false} UpgradesCompose(x: seq<Tok>, v: nat, mid: seq<Tok>, w: nat, inner: seq<Tok>, prefix: string)
    requires Plain(mid) && NoOpen(Before(x, prefix)) && v != w
    requires FindFence(x).Some? ==> FindFence(x).value.version != w
    ensures Splice(Splice(x, v, mid, prefix, false).content, w, inner, prefix, false)
         == Splice(x, w, inner, prefix, false)
  {
    FindsOwnBlock(x, v, mid, prefix);
  }

  lemma {:induction false} OneLine(x: seq<Tok>)
    requires NEWLINE !in x
    ensures Lines(x) == [x]
  {
    if x == [] {
    } else {
      OneLine(x[..|x| - 1]);
      assert x == x[..|x| - 1] + [x[|x| - 1]];
    }
  }

  /** The opener left standing: the second splice replaces it together with everything up to the block's end. */
  lemma {:induction false} DanglingOpenerSwallowsText()
    ensures var x := [Open(1), Ch('a')];
            var y := Splice(x, 2, [], "## M", false).content;
            && Splice(y, 2, [], "## M", false).content == Block(2, [])
            && y == x + [NEWLINE, NEWLINE] + Block(2, [])
  {
    var x := [Open(1), Ch('a')];
    NoSection(x, "## M");
    var a := x + [NEWLINE, NEWLINE];
    assert Before(x, "## M") == a && After(x, "## M") == [];
    FoundAgain(a, 2, [], [], 0);
    Anatomy(a, 2, [], []);
  }

  lemma {:induction false} NoSection(x: seq<Tok>, prefix: string)
    requires x == [Open(1), Ch('a')] && prefix == "## M"
    ensures FindFence(x).None? && Legacy(x, prefix, TOKEN).None?
  {
    FindFenceSpec(x);
    OneLine(x);
    assert !Heading(x, prefix) by { assert StripCR(x)[0] != Chars(prefix)[0]; }
    FirstHeadingSpec([x], prefix, 0);
  }
}
