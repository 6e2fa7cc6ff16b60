/** One undisturbed interview, and what it hands to the server. */
module InterviewRounds {
  import opened Common
  import opened InterviewLog
  import opened InterviewNode
  import opened InterviewRuns

  lemma {:induction false} SubmitTakes(w: World, count: nat)
    requires Sound(w.node, LastNum(w.log)) && w.inflight.None?
    ensures var ws := Submitting(w, count, ALL_WELL);
            var win := Window(Events(w.node.disk), w.cursor, count);
            && Events(ws.node.disk) == Events(w.node.disk)
            && ws.delivered == w.delivered
            && ws.inflight == if win == [] then None else Some(win)
  {
    SeedKeeps(w.node, Healed, LastNum(w.log));
  }

  lemma {:induction false} CommitTakes(w: World)
    ensures var w1 := Committing(w);
            && w1.node == w.node
            && w1.delivered == w.delivered + (if w.inflight.Some? then w.inflight.value else [])
  {
  }

  lemma {:induction false} PruneThrough(w: World, c: int)
    requires Sound(w.node, LastNum(w.log)) && c == Watermark(w)
    ensures var w' := Pruning(w, c, ALL_WELL);
            && w'.delivered == w.delivered && w'.cursor == w.cursor
            && Events(w'.node.disk) == KeepAbove(Events(w.node.disk), c)
  {
    PruneKeeps(w.node, c, ALL_WELL, LastNum(w.log));
    PruneSucceeds(w.node, c);
  }

  lemma {:induction false} PruneTakes(w: World)
    requires Sound(w.node, LastNum(w.log))
    ensures var w' := PruneCovered(w);
            && w'.delivered == w.delivered && w'.cursor == w.cursor
            && Events(w'.node.disk) == KeepAbove(Events(w.node.disk), Watermark(w))
  {
    PruneThrough(w, Watermark(w));
  }

  lemma {:induction false} PruneSucceeds(n: Node, c: int)
    ensures Prune(n, c, ALL_WELL).1.Ok?
  {
  }

  /** A prune through the server's watermark. */
  function PruneCovered(w: World): World {
    Pruning(w, Watermark(w), ALL_WELL)
  }

  /** A window is read from the cursor and committed. */
  function Taken(w: World, count: nat): World {
    Committing(Submitting(w, count, ALL_WELL))
  }

  /** From `w` to `w2` the server gained the next window, and the file lost what the server's cursor covers. */
  ghost predicate HandsOver(w: World, count: nat, w2: World) {
    && w2.delivered == w.delivered + Window(Events(w.node.disk), w.cursor, count)
    && Events(w2.node.disk) == KeepAbove(Events(w.node.disk), Watermark(w2))
  }

  /** After the window is committed the node is still sound. */
  lemma {:induction false} RoundSound(w: World, count: nat)
    requires Inv(w)
    ensures Sound(Taken(w, count).node, LastNum(Taken(w, count).log))
  {
    SubmitStep(w, count, ALL_WELL);
    var ws := Submitting(w, count, ALL_WELL);
    if ws.inflight.Some? { CommitStep(ws); }
  }

  lemma {:induction false} RoundOfRunSound(steps: seq<Step>, count: nat)
    ensures var w := Run(START, steps);
            Sound(w.node, LastNum(w.log)) && Sound(Taken(w, count).node, LastNum(Taken(w, count).log))
  {
    RunKeeps(steps);
    RoundSound(Run(START, steps), count);
  }

  lemma {:induction false} RoundTakes(w: World, count: nat)
    requires Sound(w.node, LastNum(w.log)) && w.inflight.None?
    ensures Taken(w, count).delivered == w.delivered + Window(Events(w.node.disk), w.cursor, count)
    ensures Events(Taken(w, count).node.disk) == Events(w.node.disk)
  {
    SubmitTakes(w, count);
    CommitTakes(Submitting(w, count, ALL_WELL));
    assert w.delivered + [] == w.delivered;
  }

  lemma {:induction false} RoundFrom(w: World, count: nat, w1: World)
    requires w.inflight.None? && Sound(w.node, LastNum(w.log))
    requires w1 == Taken(w, count) && Sound(w1.node, LastNum(w1.log))
    ensures HandsOver(w, count, PruneCovered(w1))
  {
    RoundTakes(w, count);
    RoundPrunes(w, count, w1);
  }

  lemma {:induction false} RoundPrunes(w: World, count: nat, w1: World)
    requires Sound(w1.node, LastNum(w1.log))
    requires w1.delivered == w.delivered + Window(Events(w.node.disk), w.cursor, count)
    requires Events(w1.node.disk) == Events(w.node.disk)
    ensures HandsOver(w, count, PruneCovered(w1))
  {
    PruneTakes(w1);
    Chain(w, count, w1, PruneCovered(w1));
  }

  lemma {:induction false} Chain(w: World, count: nat, w1: World, w2: World)
    requires w1.delivered == w.delivered + Window(Events(w.node.disk), w.cursor, count)
    requires Events(w1.node.disk) == Events(w.node.disk)
    requires w2.delivered == w1.delivered && w2.cursor == w1.cursor
    requires Events(w2.node.disk) == KeepAbove(Events(w1.node.disk), Watermark(w1))
    ensures HandsOver(w, count, w2)
  {
  }

  /** One undisturbed interview: read a window from the cursor, commit it, prune what it covered. */
  function Round(w: World, count: nat): World {
    PruneCovered(Taken(w, count))
  }

  /**
   One undisturbed interview at any point of any run, with nothing in flight: a window is read
   from the cursor and committed, then pruned.  It hands the server the next `count`
   waiting events and removes exactly the delivered ones.
   */
  lemma {:induction false} RoundProgress(steps: seq<Step>, count: nat) returns (w: World)
    requires Run(START, steps).inflight.None?
    ensures w == Run(START, steps) && HandsOver(w, count, Round(w, count))
  {
    w := Run(START, steps);
    RoundOfRunSound(steps, count);
    RoundFrom(w, count, Taken(w, count));
  }
}
