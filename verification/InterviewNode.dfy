/**
 One node's buffer: the inductive invariant, and the proof that every call keeps it at
 every point where a write can be rejected or the process killed.
 */
module InterviewNode {
  import opened InterviewLog

  /** The number the next append on this node would take. */
  function NextNumber(n: Node): nat {
    if n.memory.Seeded? then n.memory.next else SeedNumber(n.disk)
  }

  /**
   The inductive invariant of a node on which `top` is the largest number ever durable
   (-1 before the first): a file with events ends with `top`; a file without events is
   covered by the sidecar; a seeded process numbers above `top` and counts bytes exactly.
   */
  ghost predicate Sound(n: Node, top: int) {
    var es := Events(n.disk);
    && Increasing(es)
    && (es != [] ==> LastNum(es) == top)
    && (es == [] ==> n.disk.meta > top)
    && (n.memory.Seeded? ==>
          n.disk.tail.Clean? && n.memory.next > top && n.memory.approx == FileBytes(n.disk))
  }

  lemma {:induction false} SeedKeeps(n: Node, fate: HealFate, top: int)
    requires Sound(n, top)
    ensures var (s, r) := EnsureSeeded(n, fate);
            && Sound(s, top) && Events(s.disk) == Events(n.disk)
            && (r.Ok? ==> s.memory.Seeded? && s.memory.next == NextNumber(n))
  {
    HealKeepsEvents(n.disk);
  }

  /** Sidecar-first replacement is sound at every point it can stop at. */
  lemma {:induction false} ReplaceKeeps(n: Node, keep: seq<Event>, f: Fates, top: int)
    requires Sound(n, top) && n.memory.Seeded? && Events(n.disk) != []
    requires Increasing(keep) && (keep != [] ==> LastNum(keep) == top)
    ensures var (n', r) := Replace(n, keep, f);
            && Sound(n', top)
            && (Events(n'.disk) == keep || (Events(n'.disk) == Events(n.disk) && !r.Ok?))
  {
    var next := n.memory.next;
    match f.meta
    case MetaRejected(left) =>
      var d := LeaveMeta(n.disk, next, left);
      assert d == n.disk.(meta := d.meta) && Replace(n, keep, f) == (n.(disk := d), Raised);
      MetaKeeps(n, d.meta, top);
    case MetaKilled(left) =>
      var d := LeaveMeta(n.disk, next, left);
      assert d == n.disk.(meta := d.meta) && Replace(n, keep, f) == (Node(d, Unseeded), Gone);
      MetaKeeps(n, d.meta, top);
    case MetaWritten =>
      MetaKeeps(n, next, top);
      RewriteKeeps(n.disk.(meta := next), keep, next, top);
  }

  /** While the file has events the sidecar may hold anything. */
  lemma {:induction false} MetaKeeps(n: Node, meta: nat, top: int)
    requires Sound(n, top) && Events(n.disk) != []
    ensures var d := n.disk.(meta := meta);
            Events(d) == Events(n.disk) && Sound(n.(disk := d), top) && Sound(Node(d, Unseeded), top)
  {
    assert RawLines(n.disk.(meta := meta)) == RawLines(n.disk);
  }

  /** Once the sidecar is above `top`, the file may become any `keep` that is empty or ends there. */
  lemma {:induction false} RewriteKeeps(d: Disk, keep: seq<Event>, next: nat, top: int)
    requires d.meta > top && next > top
    requires Increasing(keep) && (keep != [] ==> LastNum(keep) == top)
    ensures var d' := Rewritten(d, keep);
            && Events(d') == keep
            && Sound(Node(d', Unseeded), top)
            && Sound(Node(d', Seeded(next, LineBytes(Records(keep)))), top)
  {
    ParsedRecords(keep);
  }

  /** An append adds its event, possibly compacting, or leaves the readable events alone. */
  ghost predicate Appended(before: seq<Event>, e: Event, n': Node, r: Reply<nat>, top: int) {
    var after := Events(n'.disk);
    && e.num > top
    && (r.Ok? ==> r.value == e.num && after != before)
    && Sound(n', if after == before then top else e.num)
    && (after != before ==> after == before + [e] || after == NewestHalf(before + [e]))
  }

  lemma {:induction false} AppendKeeps(n: Node, body: string, width: nat, f: Fates, top: int)
    requires Sound(n, top)
    ensures var (n', r) := Append(n, body, width, f);
            Appended(Events(n.disk), Event(NextNumber(n), body, width), n', r, top)
  {
    SeedKeeps(n, f.heal, top);
    var (s, r) := EnsureSeeded(n, f.heal);
    if r.Ok? {
      var e := Event(s.memory.next, body, width);
      AppendSeededKeeps(s, body, width, f, top);
    }
  }

  lemma {:induction false} AppendSeededKeeps(n: Node, body: string, width: nat, f: Fates, top: int)
    requires Sound(n, top) && n.memory.Seeded?
    ensures var (n', r) := AppendSeeded(n, body, width, f);
            Appended(Events(n.disk), Event(n.memory.next, body, width), n', r, top)
  {
    var e := Event(n.memory.next, body, width);
    match f.line
    case LineRejected =>
      assert Sound(Node(n.disk, Seeded(e.num + 1, n.memory.approx)), top);
    case LineKilled(cut) => CutKeeps(n, e, cut, top);
    case Written => WrittenKeeps(n, e, f, top);
  }

  lemma {:induction false} WrittenKeeps(n: Node, e: Event, f: Fates, top: int)
    requires Sound(n, top) && n.memory.Seeded? && e.num == n.memory.next
    ensures var g := Guard(WithLine(n, e), e.num, f);
            Appended(Events(n.disk), e, g.0, g.1, top)
  {
    LineKeeps(n, e, top);
    var n1 := WithLine(n, e);
    GuardKeeps(n1, f, e.num);
    var after := Events(Guard(n1, e.num, f).0.disk);
    if after == Events(n1.disk) {
      assert after == Events(n.disk) + [e];
    } else {
      assert after == NewestHalf(Events(n.disk) + [e]);
    }
  }

  lemma {:induction false} GuardKeeps(n: Node, f: Fates, top: nat)
    requires Sound(n, top) && n.memory.Seeded? && Events(n.disk) != []
    ensures var (n', r) := Guard(n, top, f);
            && Sound(n', top)
            && (r.Ok? ==> r.value == top)
            && (Events(n'.disk) == Events(n.disk) || Events(n'.disk) == NewestHalf(Events(n.disk)))
  {
    if n.memory.approx > MAX_BYTES {
      var es := Events(n.disk);
      assert NewestHalf(es)[|NewestHalf(es)| - 1] == es[|es| - 1];
      ReplaceKeeps(n, NewestHalf(es), f, top);
    }
  }

  /** A completed line extends the readable events, however the process fares afterwards. */
  lemma {:induction false} LineKeeps(n: Node, e: Event, top: int)
    requires Sound(n, top) && n.memory.Seeded? && e.num == n.memory.next
    ensures Events(AppendLine(n.disk, e)) == Events(n.disk) + [e]
    ensures Sound(WithLine(n, e), e.num)
    ensures Sound(Node(AppendLine(n.disk, e), Unseeded), e.num)
  {
    ParsedAppend(n.disk.lines, Record(e));
    assert Increasing(Events(n.disk) + [e]);
  }

  /** A kill during an append adds the event exactly when its whole text reached the file. */
  lemma {:induction false} CutKeeps(n: Node, e: Event, cut: Cut, top: int)
    requires Sound(n, top) && n.memory.Seeded? && e.num == n.memory.next
    ensures var n' := Node(CutLine(n.disk, e, cut), Unseeded);
            if cut.AllButNewline? || cut.Everything?
            then Events(n'.disk) == Events(n.disk) + [e] && Sound(n', e.num)
            else Events(n'.disk) == Events(n.disk) && Sound(n', top)
  {
    var d, d' := n.disk, CutLine(n.disk, e, cut);
    match cut
    case Nothing => assert d' == d;
    case Part(w) => EventsOfTail(d'); assert d'.meta == d.meta;
    case AllButNewline =>
      LineKeeps(n, e, top);
      assert RawLines(d') == RawLines(AppendLine(d, e)) && d'.meta == d.meta;
    case Everything => LineKeeps(n, e, top); assert d' == AppendLine(d, e);
  }

  lemma {:induction false} PruneKeeps(n: Node, committed: int, f: Fates, top: int)
    requires Sound(n, top)
    ensures var (n', r) := Prune(n, committed, f);
            && Sound(n', top)
            && (Events(n'.disk) == Events(n.disk) || Events(n'.disk) == KeepAbove(Events(n.disk), committed))
            && (r.Ok? ==> Events(n'.disk) == KeepAbove(Events(n.disk), committed))
  {
    SeedKeeps(n, f.heal, top);
    var (s, r) := EnsureSeeded(n, f.heal);
    if r.Ok? {
      var es := Events(s.disk);
      KeepAboveSize(es, committed);
      KeepAboveOrder(es, committed);
      if |KeepAbove(es, committed)| != |es| {
        ReplaceKeeps(s, KeepAbove(es, committed), f, top);
      }
    }
  }
}
