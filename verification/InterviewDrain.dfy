/** Undisturbed interviews in a row: how many rounds it takes to hand over everything. */
module InterviewDrain {
  import opened Common
  import opened InterviewLog
  import opened InterviewNode
  import opened InterviewRuns
  import opened InterviewRounds

  function Repeat(f: World -> World, w: World, n: nat): World {
    if n == 0 then w else f(Repeat(f, w, n - 1))
  }

  function Rounding(count: nat): World -> World {
    (w: World) => Round(w, count)
  }

  /** `n` rounds in a row. */
  function Rounds(w: World, count: nat, n: nat): World {
    Repeat(Rounding(count), w, n)
  }

  /** The cursor once a window has been committed. */
  function CursorAfter(cursor: nat, win: seq<Event>): nat {
    if win == [] then cursor else win[|win| - 1].num + 1
  }

  lemma {:induction false} TailMember(es: seq<Event>, k: nat, e: Event)
    requires Increasing(es) && k <= |es|
    ensures e in es[k..] <==> e in es && (k == 0 || e.num > es[k - 1].num)
  {
    if e in es {
      var i :| 0 <= i < |es| && es[i] == e;
      if i >= k { assert es[k..][i - k] == e; }
    }
  }

  /** The events above the last of a prefix are the rest. */
  lemma {:induction false} AboveIsRest(es: seq<Event>, bound: int, k: nat, c: int)
    requires Increasing(es) && k <= |KeepAbove(es, bound)|
    requires c == if k == 0 then bound else KeepAbove(es, bound)[k - 1].num
    ensures KeepAbove(es, c) == KeepAbove(es, bound)[k..]
  {
    var pending := KeepAbove(es, bound);
    KeepAboveOrder(es, bound);
    KeepAboveOrder(es, c);
    if k > 0 { KeepAboveMember(es, bound, pending[k - 1]); }
    forall e ensures e in KeepAbove(es, c) <==> e in pending[k..] {
      KeepAboveMember(es, bound, e);
      KeepAboveMember(es, c, e);
      TailMember(pending, k, e);
    }
    SameElementsSameOrder(KeepAbove(es, c), pending[k..]);
  }

  lemma {:induction false} KeepAboveTwice(es: seq<Event>, c: int)
    requires Increasing(es)
    ensures KeepAbove(KeepAbove(es, c), c) == KeepAbove(es, c)
  {
    var once := KeepAbove(es, c);
    KeepAboveOrder(es, c);
    KeepAboveOrder(once, c);
    forall e ensures e in KeepAbove(once, c) <==> e in once {
      KeepAboveMember(es, c, e);
      KeepAboveMember(once, c, e);
    }
    SameElementsSameOrder(KeepAbove(once, c), once);
  }

  /** What waits after a window has been taken from the front is the rest. */
  lemma {:induction false} RestWaits(es: seq<Event>, cursor: nat, count: nat, bound: int, c: int)
    requires Increasing(es) && bound == cursor - 1
    requires c == CursorAfter(cursor, Window(es, cursor, count)) - 1
    ensures |Window(es, cursor, count)| == if |KeepAbove(es, bound)| <= count then |KeepAbove(es, bound)| else count
    ensures Window(es, cursor, count) + KeepAbove(KeepAbove(es, c), c) == KeepAbove(es, bound)
  {
    var win, pending := Window(es, cursor, count), KeepAbove(es, bound);
    AboveIsRest(es, bound, |win|, c);
    KeepAboveTwice(es, c);
    assert win == pending[..|win|];
    assert pending == pending[..|win|] + pending[|win|..];
  }

  /** What a round leaves as it was, and what it shortens. */
  ghost predicate Advances(w: World, count: nat, w2: World) {
    && w2.inflight.None? && w2.log == w.log
    && w2.delivered + Pending(w2) == w.delivered + Pending(w)
    && |Pending(w2)| == if |Pending(w)| <= count then 0 else |Pending(w)| - count
  }

  lemma {:induction false} TakenKeeps(w: World, count: nat, ws: World)
    requires Inv(w) && ws == Submitting(w, count, ALL_WELL)
    ensures Inv(Committing(ws)) && Committing(ws).log == w.log
  {
    ReadStep(w, w.cursor, count, ALL_WELL);
    SubmitStep(w, count, ALL_WELL);
    ServerStep(ws);
  }

  lemma {:induction false} TakenCursor(w: World, count: nat)
    requires Sound(w.node, LastNum(w.log)) && w.inflight.None?
    ensures var w1 := Taken(w, count);
            w1.inflight.None? && w1.cursor == CursorAfter(w.cursor, Window(Events(w.node.disk), w.cursor, count))
  {
    SubmitTakes(w, count);
  }

  lemma {:induction false} Shift(delivered: seq<Event>, win: seq<Event>, left: seq<Event>, pending: seq<Event>)
    requires win + left == pending
    ensures (delivered + win) + left == delivered + pending && |left| == |pending| - |win|
  {
  }

  lemma {:induction false} RoundAdvances(w: World, count: nat, w2: World)
    requires Increasing(Events(w.node.disk)) && HandsOver(w, count, w2) && w2.inflight.None? && w2.log == w.log
    requires w2.cursor == CursorAfter(w.cursor, Window(Events(w.node.disk), w.cursor, count))
    ensures Advances(w, count, w2)
  {
    var es := Events(w.node.disk);
    RestWaits(es, w.cursor, count, Watermark(w), Watermark(w2));
    Shift(w.delivered, Window(es, w.cursor, count), Pending(w2), Pending(w));
  }

  lemma {:induction false} PruneLeaves(w: World)
    ensures PruneCovered(w).inflight == w.inflight && PruneCovered(w).cursor == w.cursor
  {
  }

  lemma {:induction false} PruneCoveredKeeps(w: World)
    requires Inv(w)
    ensures Inv(PruneCovered(w)) && PruneCovered(w).log == w.log
  {
    PruningStep(w, Watermark(w), ALL_WELL);
  }

  lemma {:induction false} RoundInv(w: World, count: nat, w1: World)
    requires Inv(w) && w1 == Taken(w, count)
    ensures Inv(PruneCovered(w1)) && PruneCovered(w1).log == w.log
    ensures Sound(w1.node, LastNum(w1.log))
  {
    TakenKeeps(w, count, Submitting(w, count, ALL_WELL));
    PruneCoveredKeeps(w1);
  }

  lemma {:induction false} RoundFromSound(w: World, count: nat, w1: World, w2: World)
    requires Sound(w.node, LastNum(w.log)) && w.inflight.None?
    requires w1 == Taken(w, count) && Sound(w1.node, LastNum(w1.log))
    requires w2 == PruneCovered(w1) && w2.log == w.log
    ensures Advances(w, count, w2)
  {
    TakenCursor(w, count);
    RoundFrom(w, count, w1);
    PruneLeaves(w1);
    RoundAdvances(w, count, w2);
  }

  lemma {:induction false} OneRound(w: World, count: nat, w1: World, w2: World)
    requires Inv(w) && w.inflight.None? && w1 == Taken(w, count) && w2 == PruneCovered(w1)
    ensures Inv(w2) && Advances(w, count, w2)
  {
    RoundInv(w, count, w1);
    RoundFromSound(w, count, w1, w2);
  }

  lemma {:induction false} AdvancesAdd(w: World, a: nat, v: World, b: nat, z: World)
    requires Advances(w, a, v) && Advances(v, b, z)
    ensures Advances(w, a + b, z)
  {
  }

  /** The number of events that `n` rounds can take. */
  function Capacity(count: nat, n: nat): nat {
    if n == 0 then 0 else Capacity(count, n - 1) + count
  }

  lemma {:induction false} CapacityIsProduct(count: nat, n: nat)
    ensures Capacity(count, n) == n * count
  {
    if n == 0 {
      assert n * count == 0;
    } else {
      CapacityIsProduct(count, n - 1);
      assert (n - 1) * count + count == n * count;
    }
  }

  ghost predicate Ready(w: World) {
    Inv(w) && w.inflight.None?
  }

  ghost predicate Advancing(f: World -> World, count: nat, w: World) {
    Ready(w) ==> Ready(f(w)) && Advances(w, count, f(w))
  }

  lemma {:induction false} RoundingAdvances(count: nat, w: World)
    ensures Advancing(Rounding(count), count, w)
  {
    if Ready(w) {
      var w2 := Rounding(count)(w);
      OneRound(w, count, Taken(w, count), w2);
    }
  }

  lemma {:induction false} RepeatAdvances(f: World -> World, w: World, count: nat, n: nat)
    requires Ready(w) && forall v :: Advancing(f, count, v)
    ensures Ready(Repeat(f, w, n)) && Advances(w, Capacity(count, n), Repeat(f, w, n))
  {
    if n == 0 {
    } else {
      var v := Repeat(f, w, n - 1);
      RepeatAdvances(f, w, count, n - 1);
      assert Advancing(f, count, v);
      AdvancesAdd(w, Capacity(count, n - 1), v, count, f(v));
    }
  }

  lemma {:induction false} RoundsAdvance(w: World, count: nat, n: nat)
    requires Ready(w)
    ensures Advances(w, Capacity(count, n), Rounds(w, count, n))
  {
    var f := Rounding(count);
    forall v ensures Advancing(f, count, v) { RoundingAdvances(count, v); }
    RepeatAdvances(f, w, count, n);
  }

  /** After enough rounds from `w` nothing waits, and the server has everything that did. */
  ghost predicate HandedOver(w: World, wn: World) {
    Pending(wn) == [] && wn.delivered == w.delivered + Pending(w) && wn.log == w.log
  }

  /**
   From any point of any run, as many undisturbed rounds as their windows need leave nothing
   waiting.  If the run was quiet, the server then holds exactly the log.
   */
  lemma {:induction false} RoundsDeliverEverything(steps: seq<Step>, count: nat, n: nat) returns (w: World, wn: World)
    requires Run(START, steps).inflight.None? && n * count >= |Pending(Run(START, steps))|
    ensures w == Run(START, steps) && wn == Rounds(w, count, n) && HandedOver(w, wn)
    ensures Quiet(steps) ==> wn.delivered == wn.log
  {
    w := Run(START, steps);
    wn := Rounds(w, count, n);
    RunKeeps(steps);
    RoundsAdvance(w, count, n);
    CapacityIsProduct(count, n);
    Drained(w, Capacity(count, n), wn);
    if Quiet(steps) { EveryEventOnceInOrder(steps); }
  }

  lemma {:induction false} Drained(w: World, total: nat, wn: World)
    requires Advances(w, total, wn) && total >= |Pending(w)|
    ensures HandedOver(w, wn)
  {
    assert wn.delivered + Pending(wn) == wn.delivered;
  }
}
