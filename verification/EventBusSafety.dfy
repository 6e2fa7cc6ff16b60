/** What every step of the event bus keeps. */
module EventBusSafety {
  import opened Common
  import opened EventBus

  // ---- Flags, start() and stop() ----

  ghost predicate Flags(c: Control, k: Clients) {
    && (!c.stop.NoStop? ==> c.stopped && c.stopping)
    && (c.stopping ==> c.stopped)
    && (k.subscriber.Some? ==> c.started && !c.stopped)
    && (!k.start.NoStart? ==> !c.started)
    && (c.started && !c.stopped ==> c.startedAt == c.generation)
    && (k.start.Building? ==> k.start.generation <= c.generation)
  }

  /** A step of `start()` or `stop()`. */
  predicate IsLifecycle(step: Step) {
    || step.StartEnters? || step.StartResumes? || step.StartCancelled? || step.StartEnds?
    || step.StopBegins? || step.StopAdvances? || step.StopCancelled?
  }

  /** The other steps touch neither the flags nor the subscriber, and at most end a failed `start()`. */
  lemma {:induction false} OthersLeaveFlags(b: Bus, step: Step)
    requires !IsLifecycle(step)
    ensures var b' := Apply(b, step);
            && b'.control == b.control && b'.clients.subscriber == b.clients.subscriber
            && (b'.clients.start == b.clients.start || b'.clients.start.NoStart?)
  {
  }

  lemma {:induction false} StartFlags(b: Bus, lost: multiset<nat>)
    requires Flags(b.control, b.clients)
    ensures var b' := StartEntersStep(b); Flags(b'.control, b'.clients)
    ensures var b' := StartResumesStep(b); Flags(b'.control, b'.clients)
    ensures var b' := StartEndsStep(b); Flags(b'.control, b'.clients)
    ensures Flags(b.control, CancelStart(b.clients, lost))
  {
  }

  lemma {:induction false} StopFlags(b: Bus, lost: multiset<nat>)
    requires Flags(b.control, b.clients)
    ensures var b' := StopBeginsStep(b); Flags(b'.control, b'.clients)
    ensures var b' := StopAdvancesStep(b); Flags(b'.control, b'.clients)
    ensures var b' := StopCancelledStep(b, lost); Flags(b'.control, b'.clients)
  {
  }

  lemma {:induction false} LifecycleFlags(b: Bus, step: Step)
    requires Flags(b.control, b.clients) && IsLifecycle(step)
    ensures Flags(Apply(b, step).control, Apply(b, step).clients)
  {
    if step.StopBegins? || step.StopAdvances? {
      StopFlags(b, multiset{});
    } else if step.StopCancelled? {
      StopFlags(b, step.lost);
    } else {
      StartFlags(b, if step.StartCancelled? then step.lost else multiset{});
    }
  }

  lemma {:induction false} StepFlags(b: Bus, step: Step)
    requires Flags(b.control, b.clients)
    ensures Flags(Apply(b, step).control, Apply(b, step).clients)
  {
    if IsLifecycle(step) { LifecycleFlags(b, step); } else { OthersLeaveFlags(b, step); }
  }

  // ---- Ownership of clients ----

  function Has(o: Option<nat>, c: nat): nat {
    if o == Some(c) then 1 else 0
  }

  /** In how many places a client is held. */
  function Holders(k: Clients, c: nat): nat {
    (if c in k.waiters then 1 else 0) +
    (if k.start.Building? && k.start.client == c then 1 else 0) +
    Has(k.publisher, c) + Has(k.subscriber, c) +
    k.closers[c] + k.closing[c] + k.closed[c]
  }

  predicate Exists(k: Clients, c: nat) {
    c in k.constructing || c in k.built
  }

  /** A client under construction or built is held once, unless its close was withdrawn, once. */
  ghost predicate HeldOnce(k: Clients, c: nat) {
    && (if Exists(k, c) then Holders(k, c) + k.leaked[c] == 1 && c < k.next else Holders(k, c) == 0)
    && (c in k.leaked ==> c < k.next)
    && (c in k.constructing ==>
          c !in k.built && Has(k.publisher, c) + Has(k.subscriber, c) + k.closing[c] + k.closed[c] == 0)
  }

  ghost predicate Owned(k: Clients) {
    forall c :: HeldOnce(k, c)
  }

  lemma {:induction false} ExecutorHeld(k: Clients, x: nat, c: nat)
    requires Owned(k)
    ensures HeldOnce(Constructed(k, x), c) && HeldOnce(Unconstructed(k, x), c)
    ensures HeldOnce(QueueClose(k, x), c) && HeldOnce(RunClose(k, x), c)
  {
    assert HeldOnce(k, c) && HeldOnce(k, x);
    CloseOwned(k, x, c);
  }

  lemma {:induction false} CloseOwned(k: Clients, x: nat, c: nat)
    requires HeldOnce(k, c) && HeldOnce(k, x)
    ensures HeldOnce(QueueClose(k, x), c)
    ensures HeldOnce(RunClose(k, x), c)
  {
    assert HeldOnce(QueueClose(k, x), c) by {
      assert x in k.closers && x in k.built ==> QueueClose(k, x).closers == k.closers - multiset{x};
    }
  }

  lemma {:induction false} CallerOwned(k: Clients, w: Waiter, g: nat, x: nat, c: nat)
    requires HeldOnce(k, c) && HeldOnce(k, x) && HeldOnce(k, k.next)
    ensures HeldOnce(Await(k, w), c)
    ensures k.start.NoStart? ==> HeldOnce(AwaitForStart(k, g), c)
    ensures x in k.waiters ==> HeldOnce(Discard(k, x), c)
    ensures x in k.waiters && x in k.built && k.publisher.None? ==> HeldOnce(Install(k, x), c)
  {
  }

  lemma {:induction false} StartOwned(k: Clients, lost: multiset<nat>, c: nat)
    requires HeldOnce(k, c)
    ensures HeldOnce(CancelStart(k, lost), c)
    ensures k.start.Building? && k.start.client in k.built && k.subscriber.None? ==>
              HeldOnce(InstallSubscriber(k), c) && HeldOnce(AbortStart(k), c)
    ensures k.start.Aborting? ==> HeldOnce(k.(start := NoStart), c)
  {
  }

  lemma {:induction false} ReleaseOwned(k: Clients, c: nat)
    requires HeldOnce(k, c)
    ensures k.subscriber.Some? ==> HeldOnce(ReleaseSubscriber(k), c)
    ensures k.publisher.Some? ==> HeldOnce(ReleasePublisher(k), c)
  {
  }

  lemma {:induction false} WithdrawOneOwned(k: Clients, lost: multiset<nat>, x: nat, c: nat)
    requires HeldOnce(k, c)
    ensures HeldOnce(WithdrawOne(k, lost, x), c)
  {
  }

  lemma {:induction false} WithdrawOwned(k: Clients, lost: multiset<nat>, c: nat)
    requires HeldOnce(k, c)
    ensures HeldOnce(Withdraw(k, lost), c)
  {
    var k' := Withdraw(k, lost);
    assert k'.closers[c] + k'.closing[c] + k'.leaked[c] == k.closers[c] + k.closing[c] + k.leaked[c];
  }

  lemma {:induction false} PublishHeld(b: Bus, message: nat, x: nat, c: nat)
    requires Owned(b.clients)
    ensures HeldOnce(PublishStep(b, message).clients, c)
    ensures HeldOnce(PublishResumesStep(b, x).clients, c)
    ensures HeldOnce(PublishCancelledStep(b, x).clients, c)
  {
    var k := b.clients;
    var w := Waiter(b.control.generation, message);
    assert HeldOnce(k, c) && HeldOnce(k, x) && HeldOnce(k, k.next);
    CallerOwned(k, w, 0, x, c);
    assert PublishStep(b, message).clients in {k, Await(k, w)};
    assert PublishCancelledStep(b, x).clients == if x in k.waiters then Discard(k, x) else k;
    var k' := PublishResumesStep(b, x).clients;
    assert k' in {k, Discard(k, x), Install(k, x)};
  }

  lemma {:induction false} StartHeld(b: Bus, lost: multiset<nat>, c: nat)
    requires Flags(b.control, b.clients) && Owned(b.clients)
    ensures HeldOnce(StartEntersStep(b).clients, c)
    ensures HeldOnce(StartResumesStep(b).clients, c)
    ensures HeldOnce(CancelStart(b.clients, lost), c)
    ensures HeldOnce(StartEndsStep(b).clients, c)
  {
    var k := b.clients;
    assert HeldOnce(k, c) && HeldOnce(k, k.next);
    StartOwned(k, lost, c);
    CallerOwned(k, Waiter(0, 0), b.control.generation, c, c);
    assert StartEntersStep(b).clients == k ||
           (k.start.NoStart? && StartEntersStep(b).clients == AwaitForStart(k, b.control.generation));
  }

  lemma {:induction false} StopHeld(b: Bus, c: nat)
    requires HeldOnce(b.clients, c)
    ensures HeldOnce(StopBeginsStep(b).clients, c)
    ensures HeldOnce(StopAdvancesStep(b).clients, c)
  {
    var k := b.clients;
    ReleaseOwned(k, c);
    assert StopBeginsStep(b).clients == k || (k.subscriber.Some? && StopBeginsStep(b).clients == ReleaseSubscriber(k));
    assert StopAdvancesStep(b).clients == k ||
           (k.publisher.Some? && StopAdvancesStep(b).clients == ReleasePublisher(k));
  }

  lemma {:induction false} StopCancelledHeld(stop: StopPoint, k: Clients, lost: multiset<nat>, c: nat)
    requires HeldOnce(k, c)
    ensures HeldOnce(CancelledClients(stop, k, lost), c)
  {
    match stop
    case ClosingSubscriber(x) => WithdrawOneOwned(k, lost, x, c);
    case StoppingPublisher(x) => WithdrawOneOwned(k, lost, x, c);
    case Finishing(_) => WithdrawOwned(k, lost, c);
    case _ =>
  }

  /** Each step moves a client from one holder to another, whatever the interleaving. */
  lemma {:induction false} StepHeld(b: Bus, step: Step, c: nat)
    requires Flags(b.control, b.clients) && Owned(b.clients)
    ensures HeldOnce(Apply(b, step).clients, c)
  {
    var k := b.clients;
    assert HeldOnce(k, c);
    match step
    case Publish(m) => PublishHeld(b, m, c, c);
    case PublishResumes(x) => PublishHeld(b, 0, x, c);
    case PublishCancelled(x) => PublishHeld(b, 0, x, c);
    case ConstructionDone(x) => ExecutorHeld(k, x, c);
    case ConstructionFails(x) => ExecutorHeld(k, x, c);
    case CloserRuns(x) => ExecutorHeld(k, x, c);
    case CloseRuns(x) => ExecutorHeld(k, x, c);
    case StartEnters => StartHeld(b, multiset{}, c);
    case StartResumes => StartHeld(b, multiset{}, c);
    case StartCancelled(lost) => StartHeld(b, lost, c);
    case StartEnds => StartHeld(b, multiset{}, c);
    case StopBegins => StopHeld(b, c);
    case StopAdvances => StopHeld(b, c);
    case StopCancelled(lost) => StopCancelledHeld(b.control.stop, k, lost, c);
    case _ => assert Apply(b, step).clients == k;
  }

  lemma {:induction false} StepOwned(b: Bus, step: Step)
    requires Flags(b.control, b.clients) && Owned(b.clients)
    ensures Owned(Apply(b, step).clients)
  {
    forall c ensures HeldOnce(Apply(b, step).clients, c) { StepHeld(b, step, c); }
  }

  // ---- Pull loops ----

  /** One task per topic, and a task is over exactly for a recorded reason. */
  ghost predicate Looping(p: Pulls) {
    && |p.loops| == |p.handlers|
    && forall i :: 0 <= i < |p.loops| ==> LoopOk(p, p.loops[i], p.handlers[i])
  }

  ghost predicate LoopOk(p: Pulls, l: Loop, t: string) {
    l.topic == t && (l.phase.Ended? <==> t in p.failed || t in p.unmarked)
  }

  ghost predicate Pulling(c: Control, k: Clients, p: Pulls) {
    && Distinct(p.handlers)
    && (!c.started ==> p.loops == [] && p.failed == {})
    && (c.started && !c.stopped ==> Looping(p) && (p.handlers != [] ==> k.subscriber.Some? && p.pool))
  }

  /** What the tasks themselves do. */
  lemma {:induction false} LoopsPulling(b: Bus, i: nat)
    requires Flags(b.control, b.clients) && Pulling(b.control, b.clients, b.pulls)
    ensures Pulling(b.control, b.clients, LoopBegin(b.pulls, i, b.control.stopped, b.clients.subscriber.Some?))
    ensures Pulling(b.control, b.clients, LoopError(b.pulls, i, b.control.stopping))
    ensures Pulling(b.control, b.clients, LoopRetry(b.pulls, i, b.control.stopping))
    ensures Pulling(b.control, b.clients, LoopFail(b.pulls, i))
    ensures Pulling(b.control, b.clients, LoopCancel(b.pulls, i, b.control.stopping))
    ensures Pulling(b.control, b.clients, LoopExit(b.pulls, i, b.control.stopping))
  {
  }

  lemma {:induction false} StartPulling(b: Bus, lost: multiset<nat>)
    requires Flags(b.control, b.clients) && Pulling(b.control, b.clients, b.pulls)
    ensures var b' := StartEntersStep(b); Pulling(b'.control, b'.clients, b'.pulls)
    ensures var b' := StartResumesStep(b); Pulling(b'.control, b'.clients, b'.pulls)
    ensures var b' := StartEndsStep(b); Pulling(b'.control, b'.clients, b'.pulls)
    ensures Pulling(b.control, CancelStart(b.clients, lost), b.pulls)
  {
  }

  lemma {:induction false} StopPulling(b: Bus, lost: multiset<nat>)
    requires Flags(b.control, b.clients) && Pulling(b.control, b.clients, b.pulls)
    ensures var b' := StopBeginsStep(b); Pulling(b'.control, b'.clients, b'.pulls)
    ensures var b' := StopAdvancesStep(b); Pulling(b'.control, b'.clients, b'.pulls)
    ensures var b' := StopCancelledStep(b, lost); Pulling(b'.control, b'.clients, b'.pulls)
  {
  }

  lemma {:induction false} SubscribePulling(b: Bus, t: string)
    requires Flags(b.control, b.clients) && Pulling(b.control, b.clients, b.pulls)
    ensures var b' := SubscribeStep(b, t); Pulling(b'.control, b'.clients, b'.pulls)
  {
  }

  predicate IsPullStep(step: Step) {
    || step.LoopBegins? || step.LoopErrors? || step.LoopRetries? || step.LoopFails? || step.LoopCancelled?
    || step.LoopExits?
  }

  lemma {:induction false} OthersLeavePulls(b: Bus, step: Step)
    requires !IsLifecycle(step) && !IsPullStep(step) && !step.Subscribe?
    ensures Apply(b, step).pulls == b.pulls
  {
  }

  lemma {:induction false} LoopStepPulling(b: Bus, step: Step)
    requires Flags(b.control, b.clients) && Pulling(b.control, b.clients, b.pulls) && IsPullStep(step)
    ensures var b' := Apply(b, step); Pulling(b'.control, b'.clients, b'.pulls)
  {
    LoopsPulling(b, step.i);
  }

  lemma {:induction false} StepPulling(b: Bus, step: Step)
    requires Flags(b.control, b.clients) && Pulling(b.control, b.clients, b.pulls)
    ensures var b' := Apply(b, step); Pulling(b'.control, b'.clients, b'.pulls)
  {
    match step
    case Subscribe(t) => SubscribePulling(b, t);
    case StartEnters => StartPulling(b, multiset{});
    case StartResumes => StartPulling(b, multiset{});
    case StartCancelled(lost) => StartPulling(b, lost);
    case StartEnds => StartPulling(b, multiset{});
    case StopBegins => StopPulling(b, multiset{});
    case StopAdvances => StopPulling(b, multiset{});
    case StopCancelled(lost) => StopPulling(b, lost);
    case _ =>
      if IsPullStep(step) {
        LoopStepPulling(b, step);
      } else {
        OthersLeavePulls(b, step);
        OthersLeaveFlags(b, step);
      }
  }

  // ---- Publish jobs ----

  /** A queued job goes to the installed publisher, through a pool that `stop()` drains before it. */
  ghost predicate JobOk(stop: StopPoint, publisher: Option<nat>, t: Traffic, j: Job) {
    j.pool in t.abandoned ||
    (publisher == Some(j.client) && (t.pool == Some(j.pool) || stop == DrainingPublishes(j.pool)))
  }

  ghost predicate Queued(stop: StopPoint, publisher: Option<nat>, t: Traffic) {
    && (forall j :: j in t.jobs ==> JobOk(stop, publisher, t, j))
    && (stop.DrainingPublishes? || stop.StoppingPublisher? ==> t.pool.None?)
    && t.submitted == t.jobs + t.enqueued + t.withdrawn
  }

  lemma {:induction false} SendQueued(b: Bus, client: nat, message: nat)
    requires b.clients.publisher == Some(client) && !b.control.stopped && b.control.stop.NoStop?
    requires Queued(b.control.stop, b.clients.publisher, b.traffic)
    ensures Queued(b.control.stop, b.clients.publisher, Send(b, client, message).traffic)
  {
    var t, t' := b.traffic, Send(b, client, message).traffic;
    forall j | j in t'.jobs ensures JobOk(b.control.stop, b.clients.publisher, t', j) {
      if j in t.jobs { assert JobOk(b.control.stop, b.clients.publisher, t, j); }
    }
  }

  lemma {:induction false} JobsQueued(stop: StopPoint, publisher: Option<nat>, t: Traffic, x: Job)
    requires Queued(stop, publisher, t)
    ensures Queued(stop, publisher, RunJob(t, x)) && Queued(stop, publisher, CancelJob(t, x))
  {
    if x in t.jobs {
      assert t.jobs == t.jobs - multiset{x} + multiset{x};
    }
    forall j | j in t.jobs
      ensures JobOk(stop, publisher, RunJob(t, x), j) && JobOk(stop, publisher, CancelJob(t, x), j)
    {
      assert JobOk(stop, publisher, t, j);
    }
  }

  lemma {:induction false} StepQueued(b: Bus, step: Step)
    requires Flags(b.control, b.clients) && Queued(b.control.stop, b.clients.publisher, b.traffic)
    ensures var b' := Apply(b, step); Queued(b'.control.stop, b'.clients.publisher, b'.traffic)
  {
    var b' := Apply(b, step);
    match step
    case Publish(m) =>
      if b.clients.publisher.Some? && !b.control.stopped { SendQueued(b, b.clients.publisher.value, m); }
    case PublishResumes(c) => PublishResumesQueued(b, c);
    case JobRuns(j) => JobsQueued(b.control.stop, b.clients.publisher, b.traffic, j);
    case JobCancelled(j) => JobsQueued(b.control.stop, b.clients.publisher, b.traffic, j);
    case StopBegins => StopEdgesQueued(b, multiset{});
    case StopAdvances => StopAdvancesQueued(b);
    case StopCancelled(lost) => StopEdgesQueued(b, lost);
    case _ =>
      assert b'.control.stop == b.control.stop && b'.clients.publisher == b.clients.publisher;
      assert b'.traffic == b.traffic;
  }

  lemma {:induction false} StopEdgesQueued(b: Bus, lost: multiset<nat>)
    requires Flags(b.control, b.clients) && Queued(b.control.stop, b.clients.publisher, b.traffic)
    ensures var b' := StopBeginsStep(b); Queued(b'.control.stop, b'.clients.publisher, b'.traffic)
    ensures var b' := StopCancelledStep(b, lost); Queued(b'.control.stop, b'.clients.publisher, b'.traffic)
  {
    var b', b'' := StopBeginsStep(b), StopCancelledStep(b, lost);
    forall j | j in b.traffic.jobs
      ensures JobOk(b'.control.stop, b'.clients.publisher, b'.traffic, j)
      ensures JobOk(b''.control.stop, b''.clients.publisher, b''.traffic, j)
    {
      assert JobOk(b.control.stop, b.clients.publisher, b.traffic, j);
    }
  }

  lemma {:induction false} PublishResumesQueued(b: Bus, c: nat)
    requires Flags(b.control, b.clients) && Queued(b.control.stop, b.clients.publisher, b.traffic)
    ensures var b' := PublishResumesStep(b, c); Queued(b'.control.stop, b'.clients.publisher, b'.traffic)
  {
    if c in b.clients.waiters && !b.control.stopped {
      var m := b.clients.waiters[c].message;
      if b.clients.publisher.Some? {
        SendQueued(b.(clients := Discard(b.clients, c)), b.clients.publisher.value, m);
      } else {
        var b1 := b.(clients := Install(b.clients, c));
        forall j | j in b.traffic.jobs ensures JobOk(b.control.stop, Some(c), b.traffic, j) {
          assert JobOk(b.control.stop, None, b.traffic, j);
        }
        SendQueued(b1, c, m);
      }
    }
  }

  lemma {:induction false} StopAdvancesQueued(b: Bus)
    requires Flags(b.control, b.clients) && Queued(b.control.stop, b.clients.publisher, b.traffic)
    ensures var b' := StopAdvancesStep(b); Queued(b'.control.stop, b'.clients.publisher, b'.traffic)
  {
    var b' := StopAdvancesStep(b);
    forall j | j in b'.traffic.jobs ensures JobOk(b'.control.stop, b'.clients.publisher, b'.traffic, j) {
      assert JobOk(b.control.stop, b.clients.publisher, b.traffic, j);
    }
  }

  // ---- All of it ----

  /** The invariant of every reachable bus. */
  ghost predicate Good(b: Bus) {
    && Flags(b.control, b.clients) && Owned(b.clients) && Pulling(b.control, b.clients, b.pulls)
    && Queued(b.control.stop, b.clients.publisher, b.traffic)
  }

  lemma {:induction false} StepGood(b: Bus, step: Step)
    requires Good(b)
    ensures Good(Apply(b, step))
  {
    StepFlags(b, step);
    StepOwned(b, step);
    StepPulling(b, step);
    StepQueued(b, step);
  }
}
