/**
 Whole runs of one node and the server that interviews it: appends, reads, prunes,
 compactions, rejected writes, kills at any write, restarts, and windows that are
 submitted, committed or lost.  The theorems at the end hold of every such run.
 */
module InterviewRuns {
  import opened Common
  import opened InterviewLog
  import opened InterviewNode

  /**
   `log` lists every event that was ever readable from the file, in the order in which
   each first became so; `acked` the numbers whose append returned.  `cursor` (one above
   the server's watermark, 0 at first) and `delivered` are the server's; `inflight` is a submitted window it has not
   answered.  `dropped` are the numbers that left the file unread by the server.
   */
  datatype World = World(
    node: Node, log: seq<Event>, acked: set<nat>,
    cursor: nat, delivered: seq<Event>, inflight: Option<seq<Event>>, dropped: set<nat>)

  datatype Step =
    | DoAppend(body: string, width: nat, fates: Fates)
    | DoRead(since: nat, count: nat, fates: Fates)
    | DoPrune(committed: int, fates: Fates)
    | Crash
    | Submit(count: nat, fates: Fates)
    | Commit
    | Lose

  const START := World(Node(Disk([], Clean, 0), Unseeded), [], {}, 0, [], None, {})

  /** The events of `after` that are not in `before`, in order. */
  function Fresh(before: seq<Event>, after: seq<Event>): seq<Event> {
    if after == [] then []
    else
      var last := after[|after| - 1];
      Fresh(before, after[..|after| - 1]) + if last in before then [] else [last]
  }

  /** The numbers of events that left the file while still above the watermark. */
  function Lost(before: seq<Event>, after: seq<Event>, cursor: nat): set<nat> {
    set e | e in before && e !in after && e.num >= cursor :: e.num
  }

  /** Bookkeeping common to every change of the node: what became readable, what was lost. */
  function Observe(w: World, n: Node): World {
    var before, after := Events(w.node.disk), Events(n.disk);
    w.(node := n, log := w.log + Fresh(before, after), dropped := w.dropped + Lost(before, after, w.cursor))
  }

  function Nums(es: seq<Event>): set<nat> {
    set e | e in es :: e.num
  }

  function Appending(w: World, body: string, width: nat, f: Fates): World {
    var (n, r) := Append(w.node, body, width, f);
    var w1 := Observe(w, n);
    if r.Ok? then w1.(acked := w1.acked + {r.value}) else w1
  }

  /** The heartbeat prunes only through a watermark the server reported. */
  function Pruning(w: World, committed: int, f: Fates): World {
    if committed < w.cursor then Observe(w, Prune(w.node, committed, f).0) else w
  }

  /** A window is read from the server's cursor; an empty one is not submitted. */
  function Submitting(w: World, count: nat, f: Fates): World {
    var (n, r) := Read(w.node, w.cursor, count, f);
    var w1 := Observe(w, n);
    if r.Ok? && r.value != [] && w.inflight.None? then w1.(inflight := Some(r.value)) else w1
  }

  /** The server takes the window in flight and moves its watermark to the window's last number. */
  function Committing(w: World): World {
    if w.inflight.None? || w.inflight.value == [] then w
    else
      var win := w.inflight.value;
      w.(cursor := win[|win| - 1].num + 1, delivered := w.delivered + win,
      dropped := w.dropped - Nums(win), inflight := None)
  }

  function Apply(w: World, step: Step): World {
    match step
    case DoAppend(body, width, f) => Appending(w, body, width, f)
    case DoRead(since, count, f) => Observe(w, Read(w.node, since, count, f).0)
    case DoPrune(c, f) => Pruning(w, c, f)
    case Crash => Observe(w, w.node.(memory := Unseeded))
    case Submit(count, f) => Submitting(w, count, f)
    case Commit => Committing(w)
    case Lose => w.(inflight := None)
  }

  function Run(w: World, steps: seq<Step>): World {
    if steps == [] then w else Apply(Run(w, steps[..|steps| - 1]), steps[|steps| - 1])
  }

  // ---- The invariant of a run ----

  /** The last number the server has taken, -1 at first. */
  function Watermark(w: World): int {
    w.cursor - 1
  }

  /** The events on disk that the server has not taken yet. */
  function Pending(w: World): seq<Event> {
    KeepAbove(Events(w.node.disk), Watermark(w))
  }

  /** The file and the log agree, and the numbering is ahead of both. */
  ghost predicate Logged(n: Node, log: seq<Event>) {
    && Increasing(log)
    && Sound(n, LastNum(log))
    && (forall e :: e in Events(n.disk) ==> e in log)
  }

  /** Every logged event is in exactly one place: delivered, waiting on disk, or dropped. */
  ghost predicate Accounted(log: seq<Event>, onDisk: seq<Event>, cursor: nat, delivered: seq<Event>,
                            dropped: set<nat>) {
    forall e :: e in log ==> Placed(e, onDisk, cursor, delivered, dropped)
  }

  ghost predicate Placed(e: Event, onDisk: seq<Event>, cursor: nat, delivered: seq<Event>, dropped: set<nat>) {
    if e.num < cursor
    then e in delivered <==> e.num !in dropped
    else e in onDisk <==> e.num !in dropped
  }

  ghost predicate Served(log: seq<Event>, cursor: nat, delivered: seq<Event>) {
    && Increasing(delivered)
    && (forall e :: e in delivered ==> e in log && e.num < cursor)
  }

  /** A window in flight starts at the cursor and skips only dropped events. */
  ghost predicate WindowOk(log: seq<Event>, cursor: nat, dropped: set<nat>, win: seq<Event>) {
    && win != [] && Increasing(win)
    && (forall e :: e in win ==> e in log && e.num >= cursor)
    && (forall e :: e in log && cursor <= e.num <= LastNum(win) ==> e in win || e.num in dropped)
  }

  ghost predicate Inv(w: World) {
    && Logged(w.node, w.log)
    && w.acked <= Nums(w.log) && w.dropped <= Nums(w.log)
    && w.cursor <= LastNum(w.log) + 1
    && Accounted(w.log, Events(w.node.disk), w.cursor, w.delivered, w.dropped)
    && Served(w.log, w.cursor, w.delivered)
    && (w.inflight.Some? ==> WindowOk(w.log, w.cursor, w.dropped, w.inflight.value))
  }

  // ---- Observing a change of the file ----

  lemma {:induction false} FreshNone(before: seq<Event>, after: seq<Event>)
    requires forall e :: e in after ==> e in before
    ensures Fresh(before, after) == []
  {
    if after == [] {
    } else {
      var init := after[..|after| - 1];
      assert forall e :: e in init ==> e in after;
      FreshNone(before, init);
      assert after[|after| - 1] in after;
    }
  }

  lemma {:induction false} FreshLast(before: seq<Event>, kept: seq<Event>, e: Event)
    requires (forall x :: x in kept ==> x in before) && e !in before
    ensures Fresh(before, kept + [e]) == [e]
  {
    assert (kept + [e])[..|kept|] == kept;
    FreshNone(before, kept);
  }

  /** A logged event's number is newly dropped exactly when that event left the file unread. */
  lemma {:induction false} LostExactly(log: seq<Event>, before: seq<Event>, after: seq<Event>, cursor: nat, e: Event)
    requires Increasing(log) && e in log && forall x :: x in before ==> x in log
    ensures e.num in Lost(before, after, cursor) <==> e in before && e !in after && e.num >= cursor
  {
    forall x | x in log && x.num == e.num ensures x == e {}
  }

  /** Losing events keeps every logged event in exactly one place. */
  lemma {:induction false} StillAccounted(w: World, after: seq<Event>, e: Event)
    requires Inv(w) && e in w.log
    requires e in after ==> e in Events(w.node.disk)
    ensures Placed(e, after, w.cursor, w.delivered, w.dropped + Lost(Events(w.node.disk), after, w.cursor))
  {
    LostExactly(w.log, Events(w.node.disk), after, w.cursor, e);
  }

  /** A larger `dropped` cannot unsettle a window in flight. */
  lemma {:induction false} WindowStays(log: seq<Event>, cursor: nat, dropped: set<nat>, more: set<nat>, win: seq<Event>)
    requires WindowOk(log, cursor, dropped, win) && dropped <= more
    ensures WindowOk(log, cursor, more, win)
  {
  }

  lemma {:induction false} WindowOutgrown(log: seq<Event>, cursor: nat, dropped: set<nat>, win: seq<Event>, e: Event)
    requires Increasing(log) && WindowOk(log, cursor, dropped, win) && e.num > LastNum(log)
    ensures WindowOk(log + [e], cursor, dropped, win)
  {
    var last := win[|win| - 1];
    assert last in win;
    IncreasingLast(log, last);
  }

  /** The file gained nothing: what it lost is accounted for. */
  lemma {:induction false} ObserveShrink(w: World, n: Node)
    requires Inv(w) && Sound(n, LastNum(w.log))
    requires forall e :: e in Events(n.disk) ==> e in Events(w.node.disk)
    ensures Inv(Observe(w, n)) && Observe(w, n).log == w.log
  {
    var before, after := Events(w.node.disk), Events(n.disk);
    FreshNone(before, after);
    assert w.log + Fresh(before, after) == w.log;
    var dropped := w.dropped + Lost(before, after, w.cursor);
    assert Accounted(w.log, after, w.cursor, w.delivered, dropped) by {
      forall e | e in w.log ensures Placed(e, after, w.cursor, w.delivered, dropped) {
        StillAccounted(w, after, e);
      }
    }
    if w.inflight.Some? { WindowStays(w.log, w.cursor, w.dropped, dropped, w.inflight.value); }
  }

  /** The file gained `e` at its end; whatever else it kept, it had. */
  ghost predicate Grows(w: World, n: Node, kept: seq<Event>, e: Event) {
    && e.num > LastNum(w.log) && Sound(n, e.num)
    && Events(n.disk) == kept + [e]
    && (forall x :: x in kept ==> x in Events(w.node.disk))
  }

  lemma {:induction false} GrowLogged(w: World, n: Node, kept: seq<Event>, e: Event)
    requires Inv(w) && Grows(w, n, kept, e)
    ensures Observe(w, n).log == w.log + [e]
    ensures Logged(n, w.log + [e])
    ensures e !in Events(w.node.disk) && e.num !in w.dropped
    ensures e.num !in Lost(Events(w.node.disk), Events(n.disk), w.cursor)
  {
    var before := Events(w.node.disk);
    forall x | x in w.log ensures x.num < e.num { IncreasingLast(w.log, x); }
    assert e !in before;
    FreshLast(before, kept, e);
    assert LastNum(w.log + [e]) == e.num;
  }

  lemma {:induction false} GrowAccounted(w: World, n: Node, kept: seq<Event>, e: Event)
    requires Inv(w) && Grows(w, n, kept, e)
    ensures var w' := Observe(w, n);
            Accounted(w.log + [e], kept + [e], w.cursor, w.delivered, w'.dropped)
  {
    GrowLogged(w, n, kept, e);
    var w' := Observe(w, n);
    forall x | x in w.log + [e] ensures Placed(x, kept + [e], w.cursor, w.delivered, w'.dropped) {
      if x != e { StillAccounted(w, kept + [e], x); }
    }
  }

  lemma {:induction false} ObserveGrow(w: World, n: Node, kept: seq<Event>, e: Event)
    requires Inv(w) && Grows(w, n, kept, e)
    ensures Inv(Observe(w, n)) && e in Observe(w, n).log
  {
    var w' := Observe(w, n);
    GrowLogged(w, n, kept, e);
    GrowAccounted(w, n, kept, e);
    assert Served(w.log + [e], w.cursor, w.delivered);
    if w.inflight.Some? {
      WindowStays(w.log, w.cursor, w.dropped, w'.dropped, w.inflight.value);
      WindowOutgrown(w.log, w.cursor, w'.dropped, w.inflight.value, e);
    }
  }

  // ---- Every step keeps the invariant ----

  lemma {:induction false} AppendGrows(w: World, n: Node, r: Reply<nat>, e: Event)
    requires Inv(w) && Appended(Events(w.node.disk), e, n, r, LastNum(w.log))
    ensures Inv(Observe(w, n)) && (r.Ok? ==> e in Observe(w, n).log)
    ensures Observe(w, n).log == if Events(n.disk) == Events(w.node.disk) then w.log else w.log + [e]
  {
    var before, after := Events(w.node.disk), Events(n.disk);
    if after == before {
      ObserveShrink(w, n);
    } else {
      var all := before + [e];
      var cut := if after == all then 0 else |all| / 2;
      assert after == before[cut..] + [e];
      ObserveGrow(w, n, before[cut..], e);
      GrowLogged(w, n, before[cut..], e);
    }
  }

  lemma {:induction false} AppendObserved(w: World, body: string, width: nat, f: Fates)
    requires Inv(w)
    ensures var (n, r) := Append(w.node, body, width, f);
            Inv(Observe(w, n)) && (r.Ok? ==> r.value in Nums(Observe(w, n).log))
  {
    var (n, r) := Append(w.node, body, width, f);
    var e := Event(NextNumber(w.node), body, width);
    AppendKeeps(w.node, body, width, f, LastNum(w.log));
    AppendGrows(w, n, r, e);
  }

  lemma {:induction false} ReadStep(w: World, since: nat, count: nat, f: Fates)
    requires Inv(w)
    ensures Inv(Observe(w, Read(w.node, since, count, f).0))
    ensures Observe(w, Read(w.node, since, count, f).0).log == w.log
    ensures Events(Read(w.node, since, count, f).0.disk) == Events(w.node.disk)
  {
    SeedKeeps(w.node, f.heal, LastNum(w.log));
    ObserveShrink(w, Read(w.node, since, count, f).0);
  }

  lemma {:induction false} PruneStep(w: World, c: int, f: Fates)
    requires Inv(w)
    ensures Inv(Observe(w, Prune(w.node, c, f).0)) && Observe(w, Prune(w.node, c, f).0).log == w.log
  {
    PruneKeeps(w.node, c, f, LastNum(w.log));
    forall e | e in KeepAbove(Events(w.node.disk), c) ensures e in Events(w.node.disk) {
      KeepAboveMember(Events(w.node.disk), c, e);
    }
    ObserveShrink(w, Prune(w.node, c, f).0);
  }

  lemma {:induction false} PrefixTakes(es: seq<Event>, k: nat, e: Event)
    requires Increasing(es) && 0 < k <= |es| && e in es && e.num <= es[k - 1].num
    ensures e in es[..k]
  {
    var i :| 0 <= i < |es| && es[i] == e;
    assert es[..k][i] == e;
  }

  /** A read from the cursor takes, in order, every event waiting there up to its last. */
  lemma {:induction false} WindowTakes(es: seq<Event>, cursor: nat, count: nat, e: Event)
    requires Increasing(es)
    ensures var win := Window(es, cursor, count);
            && Increasing(win)
            && (e in win ==> e in es && e.num >= cursor)
            && (e in es && cursor <= e.num <= LastNum(win) ==> e in win)
  {
    KeepAboveOrder(es, cursor - 1);
    KeepAboveMember(es, cursor - 1, e);
    var win := Window(es, cursor, count);
    if win != [] && e in es && cursor <= e.num <= LastNum(win) {
      PrefixTakes(KeepAbove(es, cursor - 1), |win|, e);
    }
  }

  lemma {:induction false} WindowFits(log: seq<Event>, es: seq<Event>, cursor: nat, delivered: seq<Event>,
                                      dropped: set<nat>, count: nat)
    requires Increasing(es) && (forall e :: e in es ==> e in log)
    requires Accounted(log, es, cursor, delivered, dropped)
    ensures var win := Window(es, cursor, count);
            win != [] ==> WindowOk(log, cursor, dropped, win)
  {
    var win := Window(es, cursor, count);
    if win != [] {
      WindowTakes(es, cursor, count, win[0]);
      forall e | e in win ensures e in log && e.num >= cursor {
        WindowTakes(es, cursor, count, e);
      }
      forall e | e in log && cursor <= e.num <= LastNum(win) ensures e in win || e.num in dropped {
        WindowTakes(es, cursor, count, e);
        assert Placed(e, es, cursor, delivered, dropped);
      }
    }
  }

  lemma {:induction false} SubmitStep(w: World, count: nat, f: Fates)
    requires Inv(w)
    ensures Inv(Submitting(w, count, f))
  {
    var n := Read(w.node, w.cursor, count, f).0;
    var w1 := Observe(w, n);
    ReadStep(w, w.cursor, count, f);
    WindowFits(w1.log, Events(n.disk), w1.cursor, w1.delivered, w1.dropped, count);
  }

  lemma {:induction false} CommitServes(log: seq<Event>, cursor: nat, delivered: seq<Event>, dropped: set<nat>,
                                        win: seq<Event>)
    requires Increasing(log) && Served(log, cursor, delivered) && WindowOk(log, cursor, dropped, win)
    ensures Served(log, win[|win| - 1].num + 1, delivered + win)
    ensures cursor <= win[|win| - 1].num <= LastNum(log)
  {
    assert win[|win| - 1] in win;
    IncreasingLast(log, win[|win| - 1]);
    forall i | 0 <= i < |delivered| ensures delivered[i].num < cursor { assert delivered[i] in delivered; }
    forall i | 0 <= i < |win| ensures cursor <= win[i].num { assert win[i] in win; }
    forall e | e in delivered + win ensures e in log && e.num < win[|win| - 1].num + 1 {
      if e in win { IncreasingLast(win, e); }
    }
  }

  lemma {:induction false} CommitAccounts(log: seq<Event>, es: seq<Event>, cursor: nat, delivered: seq<Event>,
                                          dropped: set<nat>, win: seq<Event>)
    requires Increasing(log) && Served(log, cursor, delivered) && WindowOk(log, cursor, dropped, win)
    requires Accounted(log, es, cursor, delivered, dropped)
    ensures Accounted(log, es, win[|win| - 1].num + 1, delivered + win, dropped - Nums(win))
  {
    forall e | e in log ensures Placed(e, es, win[|win| - 1].num + 1, delivered + win, dropped - Nums(win)) {
      assert Placed(e, es, cursor, delivered, dropped);
      InWindow(log, win, e);
    }
  }

  lemma {:induction false} CommitStep(w: World)
    requires Inv(w) && w.inflight.Some?
    ensures Inv(Committing(w))
  {
    CommitServes(w.log, w.cursor, w.delivered, w.dropped, w.inflight.value);
    CommitAccounts(w.log, Events(w.node.disk), w.cursor, w.delivered, w.dropped, w.inflight.value);
  }

  /** For a logged event, membership of a window is a matter of its number. */
  lemma {:induction false} InWindow(log: seq<Event>, win: seq<Event>, e: Event)
    requires Increasing(log) && e in log && (forall x :: x in win ==> x in log)
    requires Increasing(win)
    ensures e.num in Nums(win) <==> e in win
    ensures e in win ==> e.num <= LastNum(win)
  {
    forall x | x in log && x.num == e.num ensures x == e {}
    if e in win { IncreasingLast(win, e); }
  }

  lemma {:induction false} AppendStep(w: World, body: string, width: nat, f: Fates)
    requires Inv(w)
    ensures Inv(Appending(w, body, width, f))
  {
    AppendObserved(w, body, width, f);
  }

  lemma {:induction false} CrashStep(w: World)
    requires Inv(w)
    ensures Inv(Observe(w, w.node.(memory := Unseeded)))
  {
    ObserveShrink(w, w.node.(memory := Unseeded));
  }

  lemma {:induction false} PruningStep(w: World, c: int, f: Fates)
    requires Inv(w)
    ensures Inv(Pruning(w, c, f)) && Pruning(w, c, f).log == w.log
  {
    if c < w.cursor { PruneStep(w, c, f); }
  }

  lemma {:induction false} ServerStep(w: World)
    requires Inv(w)
    ensures Inv(Committing(w)) && Inv(w.(inflight := None))
  {
    if w.inflight.Some? { CommitStep(w); }
  }

  lemma {:induction false} StepKeeps(w: World, step: Step)
    requires Inv(w)
    ensures Inv(Apply(w, step))
  {
    match step
    case DoAppend(body, width, f) => AppendStep(w, body, width, f);
    case DoRead(since, count, f) => ReadStep(w, since, count, f);
    case DoPrune(c, f) => PruningStep(w, c, f);
    case Crash => CrashStep(w);
    case Submit(count, f) => SubmitStep(w, count, f);
    case Commit => ServerStep(w);
    case Lose => ServerStep(w);
  }

  lemma {:induction false} RunKeeps(steps: seq<Step>)
    ensures Inv(Run(START, steps))
  {
    if steps == [] {
    } else {
      RunKeeps(steps[..|steps| - 1]);
      StepKeeps(Run(START, steps[..|steps| - 1]), steps[|steps| - 1]);
    }
  }

  // ---- Theorems about every run ----

  /** Numbers strictly increase in the file, and no two events ever readable from it share one. */
  lemma {:induction false} NumbersNeverRepeat(steps: seq<Step>)
    ensures var w := Run(START, steps);
            Increasing(Events(w.node.disk)) && Increasing(w.log) && forall e :: e in Events(w.node.disk) ==> e in w.log
  {
    RunKeeps(steps);
  }

  /** The watermark never falls and the log only grows. */
  ghost predicate Extends(w: World, w': World) {
    w.cursor <= w'.cursor && w.log <= w'.log
  }

  lemma {:induction false} StepExtends(w0: World, w: World, step: Step)
    requires Inv(w) && Extends(w0, w)
    ensures Extends(w0, Apply(w, step))
  {
    if step.Commit? && w.inflight.Some? {
      CommitServes(w.log, w.cursor, w.delivered, w.dropped, w.inflight.value);
    }
    assert w.log <= Apply(w, step).log;
  }

  lemma {:induction false} RunExtends(steps: seq<Step>, more: seq<Step>)
    ensures Extends(Run(START, steps), Run(START, steps + more))
  {
    if more == [] {
      assert steps + more == steps;
    } else {
      var init, last := more[..|more| - 1], more[|more| - 1];
      RunExtends(steps, init);
      assert (steps + more)[..|steps + more| - 1] == steps + init && (steps + more)[|steps + more| - 1] == last;
      RunKeeps(steps + init);
      StepExtends(Run(START, steps), Run(START, steps + init), last);
      assert Run(START, steps + more) == Apply(Run(START, steps + init), last);
    }
  }

  /** Whatever happens after a point of a run, later events are numbered above its watermark and its log. */
  lemma {:induction false} LaterNumbersAreHigher(steps: seq<Step>, more: seq<Step>, body: string, width: nat, f: Fates)
    ensures var w, w' := Run(START, steps), Run(START, steps + more);
            var r := Append(w'.node, body, width, f).1;
            r.Ok? ==> r.value >= w.cursor && r.value > LastNum(w.log)
  {
    var w, w' := Run(START, steps), Run(START, steps + more);
    RunExtends(steps, more);
    RunKeeps(steps + more);
    RunKeeps(steps);
    AppendKeeps(w'.node, body, width, f, LastNum(w'.log));
    if w.log != [] {
      assert w.log[|w.log| - 1] in w'.log;
      IncreasingLast(w'.log, w.log[|w.log| - 1]);
    }
  }

  /** Where one logged event is. */
  ghost predicate InOnePlace(e: Event, w: World) {
    if e.num in w.dropped then e !in w.delivered && e !in Pending(w)
    else if e.num < w.cursor then e in w.delivered && e !in Pending(w)
    else e !in w.delivered && e in Pending(w)
  }

  lemma {:induction false} LoggedIsInOnePlace(w: World, e: Event)
    requires Inv(w) && e in w.log
    ensures InOnePlace(e, w)
  {
    assert Placed(e, Events(w.node.disk), w.cursor, w.delivered, w.dropped);
    KeepAboveMember(Events(w.node.disk), w.cursor - 1, e);
  }

  /** An acknowledged event is in exactly one place: delivered, waiting on disk, or dropped. */
  lemma {:induction false} AcknowledgedIsAccountedFor(steps: seq<Step>, num: nat)
    requires num in Run(START, steps).acked
    ensures exists e :: e in Run(START, steps).log && e.num == num && InOnePlace(e, Run(START, steps))
  {
    RunKeeps(steps);
    var w := Run(START, steps);
    assert num in Nums(w.log);
    var e :| e in w.log && e.num == num;
    LoggedIsInOnePlace(w, e);
  }

  /** The step is an append that finds the file over its size limit. */
  predicate Compacts(w: World, step: Step) {
    && step.DoAppend?
    && var (s, r) := EnsureSeeded(w.node, step.fates.heal);
    r.Ok? && step.fates.line.Written? && s.memory.Seeded? && s.memory.approx + step.width + 1 > MAX_BYTES
  }

  /** No append of the run hits the size guard. */
  ghost predicate Quiet(steps: seq<Step>) {
    forall i :: 0 <= i < |steps| ==> !Compacts(Run(START, steps[..i]), steps[i])
  }

  lemma {:induction false} QuietAppend(n: Node, body: string, width: nat, f: Fates, top: int)
    requires Sound(n, top)
    requires var (s, r) := EnsureSeeded(n, f.heal);
             r.Ok? && f.line.Written? && s.memory.Seeded? ==> s.memory.approx + width + 1 <= MAX_BYTES
    ensures var after := Events(Append(n, body, width, f).0.disk);
            after == Events(n.disk) || after == Events(n.disk) + [Event(NextNumber(n), body, width)]
  {
    SeedKeeps(n, f.heal, top);
    var (s, r) := EnsureSeeded(n, f.heal);
    if r.Ok? {
      var e := Event(s.memory.next, body, width);
      match f.line
      case LineRejected =>
      case LineKilled(cut) => CutKeeps(s, e, cut, top);
      case Written => LineKeeps(s, e, top);
    }
  }

  lemma {:induction false} NothingLost(before: seq<Event>, after: seq<Event>, cursor: nat)
    requires forall e :: e in before && e.num >= cursor ==> e in after
    ensures Lost(before, after, cursor) == {}
  {
  }

  lemma {:induction false} QuietAppendStep(w: World, step: Step)
    requires Sound(w.node, LastNum(w.log)) && step.DoAppend? && !Compacts(w, step)
    ensures Lost(Events(w.node.disk), Events(Append(w.node, step.body, step.width, step.fates).0.disk), w.cursor) == {}
  {
    QuietAppend(w.node, step.body, step.width, step.fates, LastNum(w.log));
    NothingLost(Events(w.node.disk), Events(Append(w.node, step.body, step.width, step.fates).0.disk), w.cursor);
  }

  lemma {:induction false} QuietPruneStep(w: World, c: int, f: Fates)
    requires Sound(w.node, LastNum(w.log)) && c < w.cursor
    ensures Lost(Events(w.node.disk), Events(Prune(w.node, c, f).0.disk), w.cursor) == {}
  {
    PruneKeeps(w.node, c, f, LastNum(w.log));
    var before, after := Events(w.node.disk), Events(Prune(w.node, c, f).0.disk);
    forall e | e in before && e.num >= w.cursor ensures e in after {
      KeepAboveMember(before, c, e);
    }
    NothingLost(before, after, w.cursor);
  }

  lemma {:induction false} ReadLosesNothing(w: World, since: nat, count: nat, f: Fates)
    requires Sound(w.node, LastNum(w.log))
    ensures Lost(Events(w.node.disk), Events(Read(w.node, since, count, f).0.disk), w.cursor) == {}
  {
    SeedKeeps(w.node, f.heal, LastNum(w.log));
    NothingLost(Events(w.node.disk), Events(Read(w.node, since, count, f).0.disk), w.cursor);
  }

  lemma {:induction false} QuietStep(w: World, step: Step)
    requires Sound(w.node, LastNum(w.log)) && !Compacts(w, step) && w.dropped == {}
    ensures Apply(w, step).dropped == {}
  {
    match step
    case DoAppend(body, width, f) => QuietAppendStep(w, step);
    case DoRead(since, count, f) => ReadLosesNothing(w, since, count, f);
    case DoPrune(c, f) => if c < w.cursor { QuietPruneStep(w, c, f); }
    case Crash => NothingLost(Events(w.node.disk), Events(w.node.disk), w.cursor);
    case Submit(count, f) => ReadLosesNothing(w, w.cursor, count, f);
    case Commit =>
    case Lose =>
  }

  lemma {:induction false} RunSound(steps: seq<Step>)
    ensures Sound(Run(START, steps).node, LastNum(Run(START, steps).log))
  {
    RunKeeps(steps);
  }

  lemma {:induction false} QuietDropsNothing(steps: seq<Step>)
    requires Quiet(steps)
    ensures Run(START, steps).dropped == {}
  {
    if steps == [] {
    } else {
      var init := steps[..|steps| - 1];
      assert forall i :: 0 <= i < |init| ==> init[..i] == steps[..i];
      QuietDropsNothing(init);
      RunSound(init);
      QuietStep(Run(START, init), steps[|steps| - 1]);
    }
  }

  lemma {:induction false} AllInOrder(log: seq<Event>, es: seq<Event>, cursor: nat, delivered: seq<Event>)
    requires Increasing(log) && Increasing(es) && Served(log, cursor, delivered) && forall e :: e in es ==> e in log
    requires Accounted(log, es, cursor, delivered, {})
    ensures delivered + KeepAbove(es, cursor - 1) == log
  {
    var all := delivered + KeepAbove(es, cursor - 1);
    forall e | e in log ensures e in all {
      assert Placed(e, es, cursor, delivered, {});
      KeepAboveMember(es, cursor - 1, e);
    }
    DeliveredThenPending(log, es, cursor, delivered);
    SameElementsSameOrder(all, log);
  }

  lemma {:induction false} NothingDropped(w: World)
    requires Inv(w) && w.dropped == {}
    ensures w.delivered + Pending(w) == w.log && w.acked <= Nums(w.log)
  {
    AllInOrder(w.log, Events(w.node.disk), w.cursor, w.delivered);
  }

  /**
   Without compaction nothing is lost, repeated or reordered: what the server holds,
   followed by what waits on disk, is exactly the log, and every acknowledged event is in it.
   */
  lemma {:induction false} EveryEventOnceInOrder(steps: seq<Step>)
    requires Quiet(steps)
    ensures var w := Run(START, steps);
            w.delivered + Pending(w) == w.log && w.acked <= Nums(w.log)
  {
    QuietDropsNothing(steps);
    RunKeeps(steps);
    NothingDropped(Run(START, steps));
  }

  lemma {:induction false} JoinIncreasing(a: seq<Event>, b: seq<Event>, cut: int)
    requires Increasing(a) && Increasing(b)
    requires (forall e :: e in a ==> e.num < cut) && (forall e :: e in b ==> e.num >= cut)
    ensures Increasing(a + b)
  {
    forall i | 0 <= i < |a| ensures a[i].num < cut { assert a[i] in a; }
    forall i | 0 <= i < |b| ensures cut <= b[i].num { assert b[i] in b; }
  }

  lemma {:induction false} DeliveredThenPending(log: seq<Event>, es: seq<Event>, cursor: nat, delivered: seq<Event>)
    requires Increasing(es) && Served(log, cursor, delivered) && forall e :: e in es ==> e in log
    ensures Increasing(delivered + KeepAbove(es, cursor - 1))
    ensures forall e :: e in delivered + KeepAbove(es, cursor - 1) ==> e in log
  {
    var pending := KeepAbove(es, cursor - 1);
    KeepAboveOrder(es, cursor - 1);
    forall e | e in pending ensures e in es && e.num >= cursor { KeepAboveMember(es, cursor - 1, e); }
    JoinIncreasing(delivered, pending, cursor);
  }

  const ALL_WELL := Fates(Healed, Written, MetaWritten, Swapped)

  // ---- Why the sidecar is written first ----

  /** The rejected order: rename, then sidecar, with the process killed in between. */
  function PruneRenameFirstKilled(n: Node, committed: int): Node {
    Node(Rewritten(n.disk, KeepAbove(Events(n.disk), committed)), Unseeded)
  }

  lemma {:induction false} FirstAppend()
    ensures Run(START, [DoAppend("a", 1, ALL_WELL)]).node ==
            Node(Disk([Record(Event(0, "a", 1))], Clean, 0), Seeded(1, 2))
  {
    var steps := [DoAppend("a", 1, ALL_WELL)];
    assert Run(START, steps[..0]) == START;
    assert EnsureSeeded(START.node, Healed).0 == Node(START.node.disk, Seeded(0, 0));
    assert [] + [Record(Event(0, "a", 1))] == [Record(Event(0, "a", 1))];
  }

  lemma {:induction false} OneEvent(e: Event, meta: nat)
    ensures Events(Disk([Record(e)], Clean, meta)) == [e]
    ensures forall b :: KeepAbove([e], b) == if e.num > b then [e] else []
  {
    var line := Record(e);
    assert [line][..0] == [] && [e][..0] == [];
    assert Parsed([line]) == [] + [e];
  }

  const FIRST := Event(0, "a", 1)

  /** With the rejected order a committed number is handed out again, at the watermark. */
  lemma {:induction false} RenameFirstReusesNumbers()
    ensures var n := Run(START, [DoAppend("a", 1, ALL_WELL)]).node;
            && Read(n, 0, 1, ALL_WELL).1 == Ok([FIRST])
            && Append(PruneRenameFirstKilled(n, 0), "b", 1, ALL_WELL).1 == Ok(0)
  {
    FirstAppend();
    OneEvent(FIRST, 0);
    ReadsFirst();
    RenamedFirst();
  }

  lemma {:induction false} ReadsFirst()
    ensures Read(Node(Disk([Record(FIRST)], Clean, 0), Seeded(1, 2)), 0, 1, ALL_WELL).1 == Ok([FIRST])
  {
    OneEvent(FIRST, 0);
  }

  lemma {:induction false} RenamedFirst()
    ensures var n := PruneRenameFirstKilled(Node(Disk([Record(FIRST)], Clean, 0), Seeded(1, 2)), 0);
            n == Node(Disk([], Clean, 0), Unseeded) && Append(n, "b", 1, ALL_WELL).1 == Ok(0)
  {
    OneEvent(FIRST, 0);
  }
}
