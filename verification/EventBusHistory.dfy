/** The history fields of the event bus, read back as statements about the steps of its run. */
module EventBusHistory {
  import opened Common
  import opened EventBus

  // ---- Statements about a run ----

  /** At step `i` of the run, `p` held of the bus and the step. */
  predicate HeldAt(steps: seq<Step>, i: nat, p: (Bus, Step) -> bool)
    requires i < |steps|
  {
    p(Run(FRESH, steps[..i]), steps[i])
  }

  ghost predicate Ever(steps: seq<Step>, p: (Bus, Step) -> bool) {
    exists i :: 0 <= i < |steps| && HeldAt(steps, i, p)
  }

  ghost predicate NeverAfter(steps: seq<Step>, i: nat, q: (Bus, Step) -> bool) {
    forall k :: i < k < |steps| ==> !HeldAt(steps, k, q)
  }

  /** `p` held at some step, and `q` at none after it. */
  ghost predicate Since(steps: seq<Step>, p: (Bus, Step) -> bool, q: (Bus, Step) -> bool) {
    exists i :: 0 <= i < |steps| && HeldAt(steps, i, p) && NeverAfter(steps, i, q)
  }

  lemma {:induction false} Next(steps: seq<Step>, step: Step)
    ensures Run(FRESH, steps + [step]) == Apply(Run(FRESH, steps), step)
  {
    assert (steps + [step])[..|steps|] == steps;
  }

  lemma {:induction false} AtNext(steps: seq<Step>, step: Step, i: nat, p: (Bus, Step) -> bool)
    requires i <= |steps|
    ensures HeldAt(steps + [step], i, p) <==> if i < |steps| then HeldAt(steps, i, p) else p(Run(FRESH, steps), step)
  {
    assert (steps + [step])[..i] == steps[..i];
    if i == |steps| { assert steps[..i] == steps; }
  }

  lemma {:induction false} EverNext(steps: seq<Step>, step: Step, p: (Bus, Step) -> bool)
    ensures Ever(steps + [step], p) <==> Ever(steps, p) || p(Run(FRESH, steps), step)
  {
    var n, more := |steps|, steps + [step];
    forall i | 0 <= i < n ensures HeldAt(more, i, p) <==> HeldAt(steps, i, p) { AtNext(steps, step, i, p); }
    AtNext(steps, step, n, p);
    assert HeldAt(more, n, p) <==> p(Run(FRESH, steps), step);
  }

  lemma {:induction false} SinceNext(steps: seq<Step>, step: Step, p: (Bus, Step) -> bool, q: (Bus, Step) -> bool)
    ensures Since(steps + [step], p, q) <==>
            p(Run(FRESH, steps), step) || (Since(steps, p, q) && !q(Run(FRESH, steps), step))
  {
    var n, more := |steps|, steps + [step];
    forall i | 0 <= i < n ensures HeldAt(more, i, p) <==> HeldAt(steps, i, p) { AtNext(steps, step, i, p); }
    forall i | 0 <= i < n ensures HeldAt(more, i, q) <==> HeldAt(steps, i, q) { AtNext(steps, step, i, q); }
    AtNext(steps, step, n, p);
    AtNext(steps, step, n, q);
    forall i | 0 <= i < n ensures NeverAfter(more, i, q) <==> NeverAfter(steps, i, q) && !HeldAt(more, n, q) {}
    assert NeverAfter(more, n, q);
  }

  // ---- Withdrawn closes ----

  /** The step cancels a coroutine of the teardown while the close of `c`, which it awaits, is still queued. */
  predicate Withdraws(b: Bus, step: Step, c: nat) {
    match step
    case StartCancelled(lost) => c in lost && b.clients.start == Aborting(c) && c in b.clients.closing
    case StopCancelled(lost) => c in lost && Awaited(b.control.stop, b.clients, c)
    case _ => false
  }

  /** A queued close of `c` that `stop()` awaits at this point. */
  predicate Awaited(stop: StopPoint, k: Clients, c: nat) {
    match stop
    case ClosingSubscriber(x) => x == c && c in k.closing
    case StoppingPublisher(x) => x == c && c in k.closing
    case Finishing(_) => c in k.closers || c in k.closing
    case _ => false
  }

  lemma {:induction false} WithdrawOneLeaks(k: Clients, lost: multiset<nat>, x: nat, c: nat)
    ensures c in WithdrawOne(k, lost, x).leaked <==> c in k.leaked || (x == c && c in lost && c in k.closing)
  {
  }

  lemma {:induction false} WithdrawLeaks(k: Clients, lost: multiset<nat>, c: nat)
    ensures c in Withdraw(k, lost).leaked <==> c in k.leaked || (c in lost && (c in k.closers || c in k.closing))
  {
  }

  lemma {:induction false} CancelledStopWithdraws(stop: StopPoint, k: Clients, lost: multiset<nat>, c: nat)
    ensures c in CancelledClients(stop, k, lost).leaked <==> c in k.leaked || (c in lost && Awaited(stop, k, c))
  {
    match stop
    case ClosingSubscriber(x) => WithdrawOneLeaks(k, lost, x, c);
    case StoppingPublisher(x) => WithdrawOneLeaks(k, lost, x, c);
    case Finishing(_) => WithdrawLeaks(k, lost, c);
    case _ =>
  }

  lemma {:induction false} OthersLeakNothing(b: Bus, step: Step)
    requires !step.StartCancelled? && !step.StopCancelled?
    ensures Apply(b, step).clients.leaked == b.clients.leaked
  {
  }

  lemma {:induction false} StepLeaks(b: Bus, step: Step, c: nat)
    ensures c in Apply(b, step).clients.leaked <==> c in b.clients.leaked || Withdraws(b, step, c)
  {
    match step
    case StartCancelled(lost) =>
      if b.clients.start.Aborting? { WithdrawOneLeaks(b.clients, lost, b.clients.start.client, c); }
    case StopCancelled(lost) => CancelledStopWithdraws(b.control.stop, b.clients, lost, c);
    case _ => OthersLeakNothing(b, step);
  }

  /** Some step of the run withdrew the close of `c`. */
  ghost predicate CloseWithdrawn(steps: seq<Step>, c: nat) {
    Ever(steps, (b, step) => Withdraws(b, step, c))
  }

  lemma {:induction false} LeakedIff(steps: seq<Step>, c: nat)
    ensures c in Run(FRESH, steps).clients.leaked <==> CloseWithdrawn(steps, c)
  {
    if steps == [] {
    } else {
      var init, last := steps[..|steps| - 1], steps[|steps| - 1];
      LeakedIff(init, c);
      LeakedNext(init, last, c);
      assert steps == init + [last];
    }
  }

  lemma {:induction false} LeakedNext(steps: seq<Step>, step: Step, c: nat)
    requires c in Run(FRESH, steps).clients.leaked <==> CloseWithdrawn(steps, c)
    ensures c in Run(FRESH, steps + [step]).clients.leaked <==> CloseWithdrawn(steps + [step], c)
  {
    Next(steps, step);
    StepLeaks(Run(FRESH, steps), step, c);
    EverNext(steps, step, (b, step) => Withdraws(b, step, c));
  }

  // ---- Tasks cancelled outside their `try` ----

  /** The step cancels the task of `topic` before its first step or in its backoff sleep, outside a teardown. */
  predicate CancelsOutsideTry(b: Bus, step: Step, topic: string) {
    && step.LoopCancelled? && step.i < |b.pulls.loops| && b.pulls.loops[step.i].topic == topic
    && !b.control.stopping && (b.pulls.loops[step.i].phase.Scheduled? || b.pulls.loops[step.i].phase.BackingOff?)
  }

  /** The step completes a `start()`. */
  predicate Restarts(b: Bus, step: Step) {
    && step.StartResumes? && b.clients.start.Building? && b.clients.start.client in b.clients.built
    && !b.control.stopping && !b.control.stopped && b.control.generation == b.clients.start.generation
  }

  lemma {:induction false} StepUnmarks(b: Bus, step: Step, topic: string)
    ensures topic in Apply(b, step).pulls.unmarked <==>
            !Restarts(b, step) && (topic in b.pulls.unmarked || CancelsOutsideTry(b, step, topic))
  {
    match step
    case LoopCancelled(i) =>
    case StartResumes =>
    case _ => OthersUnmarkNothing(b, step);
  }

  lemma {:induction false} OthersUnmarkNothing(b: Bus, step: Step)
    requires !step.LoopCancelled? && !step.StartResumes?
    ensures Apply(b, step).pulls.unmarked == b.pulls.unmarked
  {
  }

  /** Since the last completed `start()` the task of `topic` was cancelled outside its `try`. */
  ghost predicate CancelledUnseen(steps: seq<Step>, topic: string) {
    Since(steps, (b, step) => CancelsOutsideTry(b, step, topic), (b, step) => Restarts(b, step))
  }

  lemma {:induction false} UnmarkedIff(steps: seq<Step>, topic: string)
    ensures topic in Run(FRESH, steps).pulls.unmarked <==> CancelledUnseen(steps, topic)
  {
    if steps == [] {
    } else {
      var init, last := steps[..|steps| - 1], steps[|steps| - 1];
      UnmarkedIff(init, topic);
      UnmarkedNext(init, last, topic);
      assert steps == init + [last];
    }
  }

  lemma {:induction false} UnmarkedNext(steps: seq<Step>, step: Step, topic: string)
    requires topic in Run(FRESH, steps).pulls.unmarked <==> CancelledUnseen(steps, topic)
    ensures topic in Run(FRESH, steps + [step]).pulls.unmarked <==> CancelledUnseen(steps + [step], topic)
  {
    Next(steps, step);
    StepUnmarks(Run(FRESH, steps), step, topic);
    SinceNext(steps, step, (b, step) => CancelsOutsideTry(b, step, topic), (b, step) => Restarts(b, step));
  }

  // ---- Cancelled drains ----

  /** The step cancels `stop()` in the middle of draining the pool. */
  predicate CancelsDrain(b: Bus, step: Step, pool: nat) {
    step.StopCancelled? && b.control.stop == DrainingPublishes(pool)
  }

  lemma {:induction false} StepAbandons(b: Bus, step: Step, pool: nat)
    ensures pool in Apply(b, step).traffic.abandoned <==> pool in b.traffic.abandoned || CancelsDrain(b, step, pool)
  {
  }

  /** Some step of the run cancelled the drain of the pool. */
  ghost predicate DrainCancelledIn(steps: seq<Step>, pool: nat) {
    Ever(steps, (b, step) => CancelsDrain(b, step, pool))
  }

  lemma {:induction false} AbandonedIff(steps: seq<Step>, pool: nat)
    ensures pool in Run(FRESH, steps).traffic.abandoned <==> DrainCancelledIn(steps, pool)
  {
    if steps == [] {
    } else {
      var init, last := steps[..|steps| - 1], steps[|steps| - 1];
      AbandonedIff(init, pool);
      AbandonedNext(init, last, pool);
      assert steps == init + [last];
    }
  }

  lemma {:induction false} AbandonedNext(steps: seq<Step>, step: Step, pool: nat)
    requires pool in Run(FRESH, steps).traffic.abandoned <==> DrainCancelledIn(steps, pool)
    ensures pool in Run(FRESH, steps + [step]).traffic.abandoned <==> DrainCancelledIn(steps + [step], pool)
  {
    Next(steps, step);
    StepAbandons(Run(FRESH, steps), step, pool);
    EverNext(steps, step, (b, step) => CancelsDrain(b, step, pool));
  }
}
