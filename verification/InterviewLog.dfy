/**
 The on-disk interview buffer as values: a JSONL file, its unterminated tail, and the
 `.meta.json` sidecar.  Every write is a step that can succeed, be rejected while the
 process lives on, or be cut short by the death of the process.
 */
module InterviewLog {

  /** One buffered event. `width` is the byte length of its JSON text, newline excluded. */
  datatype Event = Event(num: nat, body: string, width: nat)

  /** A newline-terminated line: one that parses to an event, or one that does not. */
  datatype Line = Record(event: Event) | Garbage(width: nat)

  /** What follows the last newline: nothing, a fragment, or a whole event lacking its newline. */
  datatype Tail = Clean | Torn(width: nat) | Whole(event: Event)

  /** `meta` is the value the sidecar reads as; an absent or torn sidecar reads as 0. */
  datatype Disk = Disk(lines: seq<Line>, tail: Tail, meta: nat)

  /** Module state of the process: `_nextSeq` unset, or set together with `_approxBytes`. */
  datatype Memory = Unseeded | Seeded(next: nat, approx: nat)

  datatype Node = Node(disk: Disk, memory: Memory)

  /** How a call ends: with a value, with a rejection, or with the process gone. */
  datatype Reply<T> = Ok(value: T) | Raised | Gone

  /** How much of an appended line reached the disk before the process died. */
  datatype Cut = Nothing | Part(width: nat) | AllButNewline | Everything

  /** What a sidecar write that did not return left behind. */
  datatype Sidecar = Old | Zero | New

  datatype HealFate = Healed | HealRejected | HealKilled(done: bool)
  datatype LineFate = Written | LineRejected | LineKilled(cut: Cut)
  datatype MetaFate = MetaWritten | MetaRejected(left: Sidecar) | MetaKilled(left: Sidecar)
  datatype SwapFate = Swapped | SwapRejected | SwapKilled(done: bool)

  /** The outcome of every write that one call may perform. */
  datatype Fates = Fates(heal: HealFate, line: LineFate, meta: MetaFate, swap: SwapFate)

  const MAX_BYTES := 50_000_000

  // ---- Reading the file ----

  /** The events that `_parseLines` extracts, in file order. */
  function Parsed(lines: seq<Line>): seq<Event> {
    if lines == [] then []
    else
      Parsed(lines[..|lines| - 1]) +
      match lines[|lines| - 1] { case Record(e) => [e] case Garbage(_) => [] }
  }

  /** The raw file split at newlines: the terminated lines, then the tail. */
  function RawLines(d: Disk): seq<Line> {
    match d.tail
    case Clean => d.lines
    case Torn(w) => d.lines + [Garbage(w)]
    case Whole(e) => d.lines + [Record(e)]
  }

  /** Everything a load of the file yields. */
  function Events(d: Disk): seq<Event> {
    Parsed(RawLines(d))
  }

  function LineBytes(lines: seq<Line>): nat {
    if lines == [] then 0
    else
      LineBytes(lines[..|lines| - 1]) +
      match lines[|lines| - 1] { case Record(e) => e.width + 1 case Garbage(w) => w + 1 }
  }

  function TailWidth(t: Tail): nat {
    match t case Clean => 0 case Torn(w) => w case Whole(e) => e.width
  }

  function FileBytes(d: Disk): nat {
    LineBytes(d.lines) + TailWidth(d.tail)
  }

  /** The events numbered above `bound`, in order. */
  function KeepAbove(es: seq<Event>, bound: int): seq<Event> {
    if es == [] then []
    else
      var last := es[|es| - 1];
      KeepAbove(es[..|es| - 1], bound) + if last.num > bound then [last] else []
  }

  // ---- Writing the file ----

  /** Appending the missing newline turns the tail into a line. */
  function Heal(d: Disk): Disk {
    Disk(RawLines(d), Clean, d.meta)
  }

  /** A line appended after an unterminated tail merges with it and no longer parses. */
  function AppendLine(d: Disk, e: Event): Disk {
    if d.tail.Clean?
    then d.(lines := d.lines + [Record(e)])
    else d.(lines := d.lines + [Garbage(TailWidth(d.tail) + e.width)], tail := Clean)
  }

  function CutLine(d: Disk, e: Event, cut: Cut): Disk {
    match cut
    case Nothing => d
    case Part(w) => if w == 0 then d else d.(tail := Torn(TailWidth(d.tail) + w))
    case AllButNewline =>
      if d.tail.Clean? then d.(tail := Whole(e)) else d.(tail := Torn(TailWidth(d.tail) + e.width))
    case Everything => AppendLine(d, e)
  }

  function LeaveMeta(d: Disk, next: nat, left: Sidecar): Disk {
    match left case Old => d case Zero => d.(meta := 0) case New => d.(meta := next)
  }

  function Records(es: seq<Event>): seq<Line> {
    seq(|es|, i requires 0 <= i < |es| => Record(es[i]))
  }

  /** The file once the temporary file has been renamed over it. */
  function Rewritten(d: Disk, keep: seq<Event>): Disk {
    Disk(Records(keep), Clean, d.meta)
  }

  // ---- The calls ----

  /** `max(tail + 1, meta)`: the number the next event gets after a restart. */
  function SeedNumber(d: Disk): nat {
    var es := Events(d);
    var fromTail := if es == [] then 0 else es[|es| - 1].num + 1;
    if fromTail < d.meta then d.meta else fromTail
  }

  function Seed(d: Disk): Node {
    Node(d, Seeded(SeedNumber(d), FileBytes(d)))
  }

  function EnsureSeeded(n: Node, fate: HealFate): (Node, Reply<()>) {
    if n.memory.Seeded? then (n, Ok(()))
    else if n.disk.tail.Clean? then (Seed(n.disk), Ok(()))
    else
      match fate
      case Healed => (Seed(Heal(n.disk)), Ok(()))
      case HealRejected => (n, Raised)
      case HealKilled(done) => (Node(if done then Heal(n.disk) else n.disk, Unseeded), Gone)
  }

  /** Sidecar first, then the atomic rename: the order both prune and compaction use. */
  function Replace(n: Node, keep: seq<Event>, f: Fates): (Node, Reply<()>)
    requires n.memory.Seeded?
  {
    var next := n.memory.next;
    match f.meta
    case MetaRejected(left) => (n.(disk := LeaveMeta(n.disk, next, left)), Raised)
    case MetaKilled(left) => (Node(LeaveMeta(n.disk, next, left), Unseeded), Gone)
    case MetaWritten =>
      var d := n.disk.(meta := next);
      match f.swap
      case SwapRejected => (n.(disk := d), Raised)
      case SwapKilled(done) => (Node(if done then Rewritten(d, keep) else d, Unseeded), Gone)
      case Swapped => (Node(Rewritten(d, keep), Seeded(next, LineBytes(Records(keep)))), Ok(()))
  }

  /** The newest half that compaction retains. */
  function NewestHalf(es: seq<Event>): seq<Event> {
    es[|es| / 2..]
  }

  /** The node once event `e` has been written with the number it reserved. */
  function WithLine(n: Node, e: Event): Node
    requires n.memory.Seeded?
  {
    Node(AppendLine(n.disk, e), Seeded(e.num + 1, n.memory.approx + e.width + 1))
  }

  /** The size guard at the end of an append of event `num`. */
  function Guard(n: Node, num: nat, f: Fates): (Node, Reply<nat>)
    requires n.memory.Seeded?
  {
    if n.memory.approx <= MAX_BYTES then (n, Ok(num))
    else
      var (n', r) := Replace(n, NewestHalf(Events(n.disk)), f);
      (n', match r case Ok(_) => Ok(num) case Raised => Raised case Gone => Gone)
  }

  /** An append once the process is seeded. */
  function AppendSeeded(n: Node, body: string, width: nat, f: Fates): (Node, Reply<nat>)
    requires n.memory.Seeded?
  {
    var e := Event(n.memory.next, body, width);
    match f.line
    case LineRejected => (Node(n.disk, Seeded(e.num + 1, n.memory.approx)), Raised)
    case LineKilled(cut) => (Node(CutLine(n.disk, e, cut), Unseeded), Gone)
    case Written => Guard(WithLine(n, e), e.num, f)
  }

  function Append(n: Node, body: string, width: nat, f: Fates): (Node, Reply<nat>) {
    var (s, r) := EnsureSeeded(n, f.heal);
    match r
    case Raised => (s, Raised)
    case Gone => (s, Gone)
    case Ok(_) => AppendSeeded(s, body, width, f)
  }

  /** Up to `count` events numbered at least `since`. */
  function Window(es: seq<Event>, since: nat, count: nat): seq<Event> {
    var found := KeepAbove(es, since - 1);
    if |found| <= count then found else found[..count]
  }

  function Read(n: Node, since: nat, count: nat, f: Fates): (Node, Reply<seq<Event>>) {
    var (s, r) := EnsureSeeded(n, f.heal);
    match r
    case Raised => (s, Raised)
    case Gone => (s, Gone)
    case Ok(_) => (s, Ok(Window(Events(s.disk), since, count)))
  }

  function Prune(n: Node, committed: int, f: Fates): (Node, Reply<()>) {
    var (s, r) := EnsureSeeded(n, f.heal);
    if !r.Ok? then (s, r)
    else
      var es := Events(s.disk);
      var keep := KeepAbove(es, committed);
      if |keep| == |es| then (s, Ok(())) else Replace(s, keep, f)
  }

  // ---- Facts about the file ----

  lemma {:induction false} ParsedAppend(lines: seq<Line>, l: Line)
    ensures Parsed(lines + [l]) == Parsed(lines) + (match l case Record(e) => [e] case Garbage(_) => [])
    ensures LineBytes(lines + [l]) ==
            LineBytes(lines) + (match l case Record(e) => e.width + 1 case Garbage(w) => w + 1)
  {
    assert (lines + [l])[..|lines|] == lines;
  }

  lemma {:induction false} ParsedRecords(es: seq<Event>)
    ensures Parsed(Records(es)) == es
  {
    if es == [] {
    } else {
      var init := es[..|es| - 1];
      ParsedRecords(init);
      assert Records(es)[..|es| - 1] == Records(init);
      assert es == init + [es[|es| - 1]];
    }
  }

  /** Healing, and the tail on its own, never change what parses. */
  lemma {:induction false} HealKeepsEvents(d: Disk)
    ensures Events(Heal(d)) == Events(d)
  {
  }

  lemma {:induction false} EventsOfTail(d: Disk)
    ensures Events(d) == Parsed(d.lines) + (if d.tail.Whole? then [d.tail.event] else [])
  {
    match d.tail
    case Clean =>
    case Torn(w) => ParsedAppend(d.lines, Garbage(w));
    case Whole(e) => ParsedAppend(d.lines, Record(e));
  }

  // ---- Facts about numbered sequences ----

  ghost predicate Increasing(es: seq<Event>) {
    forall i, j :: 0 <= i < j < |es| ==> es[i].num < es[j].num
  }

  function LastNum(es: seq<Event>): int {
    if es == [] then -1 else es[|es| - 1].num
  }

  lemma {:induction false} IncreasingLast(es: seq<Event>, e: Event)
    requires Increasing(es) && e in es
    ensures e.num <= LastNum(es)
  {
  }

  lemma {:induction false} KeepAboveMember(es: seq<Event>, bound: int, e: Event)
    ensures e in KeepAbove(es, bound) <==> e in es && e.num > bound
  {
    if es == [] {
    } else {
      KeepAboveMember(es[..|es| - 1], bound, e);
      assert es == es[..|es| - 1] + [es[|es| - 1]];
    }
  }

  lemma {:induction false} KeepAboveSize(es: seq<Event>, bound: int)
    ensures |KeepAbove(es, bound)| <= |es|
    ensures |KeepAbove(es, bound)| == |es| ==> KeepAbove(es, bound) == es
  {
    if es == [] {
    } else {
      var init, last := es[..|es| - 1], es[|es| - 1];
      KeepAboveSize(init, bound);
      assert KeepAbove(es, bound) == KeepAbove(init, bound) + if last.num > bound then [last] else [];
      if |KeepAbove(es, bound)| == |es| { assert es == init + [last]; }
    }
  }

  /** Pruning an increasing file leaves it increasing, and never takes the newest event alone. */
  lemma {:induction false} KeepAboveOrder(es: seq<Event>, bound: int)
    requires Increasing(es)
    ensures Increasing(KeepAbove(es, bound))
    ensures KeepAbove(es, bound) != [] ==> KeepAbove(es, bound)[|KeepAbove(es, bound)| - 1] == es[|es| - 1]
  {
    if es == [] {
    } else {
      var init, last := es[..|es| - 1], es[|es| - 1];
      KeepAboveOrder(init, bound);
      var kept := KeepAbove(init, bound);
      forall i | 0 <= i < |kept| ensures bound < kept[i].num < last.num {
        assert kept[i] in kept;
        KeepAboveMember(init, bound, kept[i]);
      }
    }
  }

  /** Two increasing sequences with the same elements are the same sequence. */
  lemma {:induction false} SameElementsSameOrder(a: seq<Event>, b: seq<Event>)
    requires Increasing(a) && Increasing(b)
    requires forall e :: e in a <==> e in b
    ensures a == b
  {
    if a == [] {
      assert b == [] by { assert forall i :: 0 <= i < |b| ==> b[i] in b; }
    } else {
      assert a[|a| - 1] in b;
      var a0, b0 := a[..|a| - 1], b[..|b| - 1];
      var x, y := a[|a| - 1], b[|b| - 1];
      assert y in a;
      assert x == y;
      assert forall e :: e in a <==> e in a0 || e == x by { assert a == a0 + [x]; }
      assert forall e :: e in b <==> e in b0 || e == y by { assert b == b0 + [y]; }
      SameElementsSameOrder(a0, b0);
      assert a == a0 + [x] && b == b0 + [y];
    }
  }
}
