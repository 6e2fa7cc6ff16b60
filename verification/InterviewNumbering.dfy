/** Which numbers events get, when the file is compacted, and how its bytes are counted. */
module InterviewNumbering {
  import opened Common
  import opened InterviewLog
  import opened InterviewNode
  import opened InterviewRuns

  // ---- One append ----

  function Larger(a: nat, b: nat): nat {
    if a < b then b else a
  }

  /** One more than the last readable number, 0 if there is none. */
  function AfterLast(es: seq<Event>): nat {
    if es == [] then 0 else es[|es| - 1].num + 1
  }

  /** The number a process gives next, over what it remembers or what it finds on disk. */
  function Upcoming(n: Node): nat {
    if n.memory.Seeded? then n.memory.next else Larger(AfterLast(Events(n.disk)), n.disk.meta)
  }

  lemma {:induction false} SeedNumberIs(d: Disk)
    ensures SeedNumber(d) == Larger(AfterLast(Events(d)), d.meta)
  {
  }

  lemma {:induction false} SeedNumberHealed(d: Disk)
    ensures SeedNumber(Heal(d)) == Larger(AfterLast(Events(d)), d.meta)
  {
    HealKeepsEvents(d);
    SeedNumberIs(Heal(d));
  }

  lemma {:induction false} SeedGives(n: Node, fate: HealFate)
    ensures EnsureSeeded(n, fate).1.Ok? ==>
              EnsureSeeded(n, fate).0.memory.Seeded? && EnsureSeeded(n, fate).0.memory.next == Upcoming(n)
  {
    if n.memory.Unseeded? {
      SeedNumberIs(n.disk);
      SeedNumberHealed(n.disk);
    }
  }

  lemma {:induction false} AppendSeededGives(n: Node, body: string, width: nat, f: Fates)
    requires n.memory.Seeded?
    ensures AppendSeeded(n, body, width, f).1.Ok? ==> AppendSeeded(n, body, width, f).1.value == n.memory.next
  {
  }

  /**
   After a restart an append gets the larger of the last readable number plus one and the sidecar
   value; otherwise the next number in memory.
   */
  lemma {:induction false} NumberGiven(n: Node, body: string, width: nat, f: Fates)
    ensures Append(n, body, width, f).1.Ok? ==> Append(n, body, width, f).1.value == Upcoming(n)
  {
    SeedGives(n, f.heal);
    var (s, r) := EnsureSeeded(n, f.heal);
    if r.Ok? { AppendSeededGives(s, body, width, f); }
  }

  /** A healed tail costs one byte, a line its text and one byte. */
  lemma {:induction false} BytesCounted(d: Disk, e: Event)
    ensures FileBytes(Disk([], Clean, d.meta)) == 0
    ensures FileBytes(Heal(d)) == FileBytes(d) + if d.tail.Clean? then 0 else 1
    ensures d.tail.Clean? ==> FileBytes(AppendLine(d, e)) == FileBytes(d) + e.width + 1
  {
    ParsedAppend(d.lines, Record(e));
    match d.tail
    case Clean =>
    case Torn(w) => ParsedAppend(d.lines, Garbage(w));
    case Whole(x) => ParsedAppend(d.lines, Record(x));
  }

  /** What is on disk before the size guard looks at it. */
  function BytesAfter(n: Node, width: nat): nat {
    FileBytes(n.disk) + (if n.disk.tail.Clean? then 0 else 1) + width + 1
  }

  /** What an undisturbed append makes of the readable events. */
  function EventsAfter(n: Node, e: Event): seq<Event> {
    var all := Events(n.disk) + [e];
    if BytesAfter(n, e.width) <= 50_000_000 then all else all[|all| / 2..]
  }

  lemma {:induction false} SeededIs(n: Node, top: int)
    requires Sound(n, top)
    ensures var (s, r) := EnsureSeeded(n, Healed);
            && r.Ok? && s.memory.Seeded? && s.memory.next == Upcoming(n) && Sound(s, top)
            && Events(s.disk) == Events(n.disk)
            && s.memory.approx == FileBytes(n.disk) + if n.disk.tail.Clean? then 0 else 1
  {
    SeedKeeps(n, Healed, top);
    SeedGives(n, Healed);
    BytesCounted(n.disk, Event(0, "", 0));
  }

  /** The size guard after a completed line: above the limit the newest half remains, below it everything. */
  lemma {:induction false} GuardExact(n: Node, e: Event)
    requires n.memory.Seeded?
    ensures var (n', r) := Guard(n, e.num, ALL_WELL);
            && r == Ok(e.num) && n'.memory.Seeded? && n'.memory.next == n.memory.next
            && Events(n'.disk) ==
               (if n.memory.approx <= 50_000_000 then Events(n.disk) else Events(n.disk)[|Events(n.disk)| / 2..])
  {
    if n.memory.approx > MAX_BYTES { ParsedRecords(NewestHalf(Events(n.disk))); }
  }

  /**
   An undisturbed append returns the upcoming number, adds its event, and compacts exactly above
   fifty million bytes.
   */
  lemma {:induction false} UndisturbedAppend(n: Node, body: string, width: nat, top: int)
    requires Sound(n, top)
    ensures var (n', r) := Append(n, body, width, ALL_WELL);
            && r == Ok(Upcoming(n))
            && Events(n'.disk) == EventsAfter(n, Event(Upcoming(n), body, width))
            && n'.memory.Seeded? && n'.memory.next == Upcoming(n) + 1
  {
    SeededIs(n, top);
    var s := EnsureSeeded(n, Healed).0;
    var e := Event(s.memory.next, body, width);
    LineKeeps(s, e, top);
    GuardExact(WithLine(s, e), e);
  }

  /** A compaction keeps the newest half, rounded up. */
  lemma {:induction false} CompactionKeepsHalf(n: Node, e: Event)
    ensures var all := Events(n.disk) + [e];
            EventsAfter(n, e) == if BytesAfter(n, e.width) <= 50_000_000 then all else Newest(all, (|all| + 1) / 2)
  {
    HalfIs(Events(n.disk) + [e]);
  }

  /** The last `k` events. */
  function Newest(es: seq<Event>, k: nat): seq<Event>
    requires k <= |es|
  {
    es[|es| - k..]
  }

  lemma {:induction false} HalfIs(es: seq<Event>)
    ensures es[|es| / 2..] == Newest(es, (|es| + 1) / 2)
  {
    assert |es| - (|es| + 1) / 2 == |es| / 2;
  }

  /**
   A rejected heal leaves everything for the next call to try again; a rejected line costs its
   number and nothing else.
   */
  lemma {:induction false} RejectedWritesNothing(n: Node, body: string, width: nat, f: Fates)
    ensures n.memory.Unseeded? && !n.disk.tail.Clean? && f.heal.HealRejected? ==>
              && Append(n, body, width, f) == (n, Raised) && Read(n, 0, width, f) == (n, Raised)
              && Prune(n, 0, f) == (n, Raised)
    ensures n.memory.Seeded? && f.line.LineRejected? ==>
              Append(n, body, width, f) == (n.(memory := Seeded(n.memory.next + 1, n.memory.approx)), Raised)
  {
  }

  /** Appending to a torn tail, which seeding prevents, would lose both events. */
  lemma {:induction false} UnhealedAppendLosesBoth(d: Disk, e: Event)
    requires !d.tail.Clean?
    ensures Events(AppendLine(d, e)) == Parsed(d.lines)
  {
    ParsedAppend(d.lines, Garbage(TailWidth(d.tail) + e.width));
  }

  // ---- No gaps ----

  /** The numbering is exactly one ahead of the largest number ever durable. */
  ghost predicate Tight(n: Node, top: int) {
    n.disk.meta <= top + 1 && (n.memory.Seeded? ==> n.memory.next == top + 1)
  }

  lemma {:induction false} TightUpcoming(n: Node, top: int)
    requires Sound(n, top) && Tight(n, top)
    ensures NextNumber(n) == top + 1
  {
  }

  lemma {:induction false} TightSeed(n: Node, fate: HealFate, top: int)
    requires Sound(n, top) && Tight(n, top)
    ensures Tight(EnsureSeeded(n, fate).0, top)
  {
    HealKeepsEvents(n.disk);
  }

  lemma {:induction false} TightReplace(n: Node, keep: seq<Event>, f: Fates, top: int)
    requires n.memory.Seeded? && Tight(n, top)
    ensures Tight(Replace(n, keep, f).0, top)
  {
  }

  lemma {:induction false} TightPrune(n: Node, c: int, f: Fates, top: int)
    requires Sound(n, top) && Tight(n, top)
    ensures Tight(Prune(n, c, f).0, top)
  {
    TightSeed(n, f.heal, top);
    var (s, r) := EnsureSeeded(n, f.heal);
    if r.Ok? {
      SeedKeeps(n, f.heal, top);
      TightReplace(s, KeepAbove(Events(s.disk), c), f, top);
    }
  }

  lemma {:induction false} TightGuard(n: Node, num: nat, f: Fates, top: int)
    requires n.memory.Seeded? && Tight(n, top)
    ensures Tight(Guard(n, num, f).0, top)
  {
    TightReplace(n, NewestHalf(Events(n.disk)), f, top);
  }

  /** Unless its line is rejected by a process that lives on, an append leaves no gap. */
  lemma {:induction false} TightAppendSeeded(n: Node, body: string, width: nat, f: Fates, top: int)
    requires Sound(n, top) && Tight(n, top) && n.memory.Seeded? && !f.line.LineRejected?
    ensures var n' := AppendSeeded(n, body, width, f).0;
            Tight(n', if Events(n'.disk) == Events(n.disk) then top else top + 1)
  {
    var e := Event(n.memory.next, body, width);
    match f.line
    case LineKilled(cut) => CutKeeps(n, e, cut, top);
    case Written =>
      TightGuard(WithLine(n, e), e.num, f, top + 1);
      AppendSeededKeeps(n, body, width, f, top);
      WrittenChanges(n, e, f, top);
  }

  lemma {:induction false} WrittenChanges(n: Node, e: Event, f: Fates, top: int)
    requires Sound(n, top) && n.memory.Seeded? && e.num == n.memory.next
    ensures Events(Guard(WithLine(n, e), e.num, f).0.disk) != Events(n.disk)
  {
    LineKeeps(n, e, top);
    GuardKeeps(WithLine(n, e), f, e.num);
    EndsWithNew(Events(n.disk), e, Events(Guard(WithLine(n, e), e.num, f).0.disk));
  }

  lemma {:induction false} LastOfHalf(es: seq<Event>)
    requires es != []
    ensures LastNum(NewestHalf(es)) == LastNum(es)
  {
    var m := |es| / 2;
    assert |es[m..]| == |es| - m > 0;
  }

  lemma {:induction false} EndsWithNew(es: seq<Event>, e: Event, after: seq<Event>)
    requires LastNum(es) < e.num && (after == es + [e] || after == NewestHalf(es + [e]))
    ensures after != es
  {
    LastOfHalf(es + [e]);
    assert LastNum(es + [e]) == e.num;
    assert LastNum(after) != LastNum(es);
  }

  lemma {:induction false} TightAppend(n: Node, body: string, width: nat, f: Fates, top: int)
    requires Sound(n, top) && Tight(n, top) && !f.line.LineRejected?
    ensures var n' := Append(n, body, width, f).0;
            Tight(n', if Events(n'.disk) == Events(n.disk) then top else top + 1)
  {
    SeedKeeps(n, f.heal, top);
    TightSeed(n, f.heal, top);
    var (s, r) := EnsureSeeded(n, f.heal);
    if r.Ok? { TightAppendSeeded(s, body, width, f, top); }
  }

  /** The numbers are 0, 1, 2 and so on. */
  ghost predicate Consecutive(es: seq<Event>) {
    forall i :: 0 <= i < |es| ==> es[i].num == i
  }

  ghost predicate Dense(n: Node, log: seq<Event>) {
    Tight(n, LastNum(log)) && Consecutive(log)
  }

  lemma {:induction false} DenseAppend(w: World, body: string, width: nat, f: Fates, n: Node)
    requires Inv(w) && Dense(w.node, w.log) && !f.line.LineRejected? && n == Append(w.node, body, width, f).0
    ensures Dense(n, Observe(w, n).log)
  {
    var top, e := LastNum(w.log), Event(NextNumber(w.node), body, width);
    AppendKeeps(w.node, body, width, f, top);
    AppendGrows(w, n, Append(w.node, body, width, f).1, e);
    TightAppend(w.node, body, width, f, top);
    TightUpcoming(w.node, top);
    if Events(n.disk) != Events(w.node.disk) { ConsecutiveNext(w.log, e); }
  }

  lemma {:induction false} ConsecutiveNext(log: seq<Event>, e: Event)
    requires Consecutive(log) && e.num == LastNum(log) + 1
    ensures Consecutive(log + [e]) && LastNum(log + [e]) == e.num
  {
  }

  lemma {:induction false} DenseRead(w: World, since: nat, count: nat, f: Fates)
    requires Inv(w) && Dense(w.node, w.log)
    ensures var n := Read(w.node, since, count, f).0; Dense(n, Observe(w, n).log)
  {
    ReadStep(w, since, count, f);
    TightSeed(w.node, f.heal, LastNum(w.log));
  }

  lemma {:induction false} DensePrune(w: World, c: int, f: Fates)
    requires Inv(w) && Dense(w.node, w.log)
    ensures Dense(Pruning(w, c, f).node, Pruning(w, c, f).log)
  {
    PruningStep(w, c, f);
    TightPrune(w.node, c, f, LastNum(w.log));
  }

  lemma {:induction false} DenseCrash(w: World)
    requires Inv(w) && Dense(w.node, w.log)
    ensures var w' := Observe(w, w.node.(memory := Unseeded)); Dense(w'.node, w'.log)
  {
    ObserveShrink(w, w.node.(memory := Unseeded));
  }

  /** The step is not an append whose line is rejected by a process that lives on. */
  predicate Accepted(step: Step) {
    step.DoAppend? ==> !step.fates.line.LineRejected?
  }

  lemma {:induction false} DenseStep(w: World, step: Step)
    requires Inv(w) && Dense(w.node, w.log) && Accepted(step)
    ensures Dense(Apply(w, step).node, Apply(w, step).log)
  {
    match step
    case DoAppend(body, width, f) => DenseAppend(w, body, width, f, Append(w.node, body, width, f).0);
    case DoRead(since, count, f) => DenseRead(w, since, count, f);
    case DoPrune(c, f) => DensePrune(w, c, f);
    case Crash => DenseCrash(w);
    case Submit(count, f) => DenseRead(w, w.cursor, count, f);
    case Commit =>
    case Lose =>
  }

  ghost predicate DenseAfter(steps: seq<Step>) {
    Dense(Run(START, steps).node, Run(START, steps).log)
  }

  lemma {:induction false} DenseNext(steps: seq<Step>, step: Step)
    requires DenseAfter(steps) && Accepted(step)
    ensures DenseAfter(steps + [step])
  {
    RunKeeps(steps);
    DenseStep(Run(START, steps), step);
    assert (steps + [step])[..|steps|] == steps;
  }

  lemma {:induction false} DenseRun(steps: seq<Step>)
    requires forall i :: 0 <= i < |steps| ==> Accepted(steps[i])
    ensures DenseAfter(steps)
  {
    if steps == [] {
      assert DenseAfter([]);
    } else {
      var init, last := steps[..|steps| - 1], steps[|steps| - 1];
      assert forall i :: 0 <= i < |init| ==> init[i] == steps[i];
      DenseRun(init);
      DenseNext(init, last);
      assert steps == init + [last];
    }
  }

  /**
   Kills, restarts, prunes and compactions leave no gap: unless an append was rejected by a process
   that lived on, the events ever readable are numbered 0, 1, 2 and so on.
   */
  lemma {:induction false} NumbersHaveNoGaps(steps: seq<Step>)
    requires forall i :: 0 <= i < |steps| ==> Accepted(steps[i])
    ensures var log := Run(START, steps).log; forall i :: 0 <= i < |log| ==> log[i].num == i
  {
    DenseRun(steps);
  }

  /** A number that an append returned is recorded as acknowledged, and stays so. */
  lemma {:induction false} ReturnedIsAcknowledged(w: World, body: string, width: nat, f: Fates)
    ensures var r, w' := Append(w.node, body, width, f).1, Apply(w, DoAppend(body, width, f));
            w.acked <= w'.acked && (r.Ok? ==> r.value in w'.acked)
  {
  }
}
