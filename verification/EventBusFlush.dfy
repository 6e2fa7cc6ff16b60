/**
 Which submitted publishes can miss the flush.  A job that waits in a pool whose drain was
 cancelled, with its client still installed, can always be overtaken by a further `stop()`;
 any other job cannot, as long as no further drain is cancelled.
 */
module EventBusFlush {
  import opened Common
  import opened EventBus
  import opened EventBusHistory
  import opened EventBusSafety
  import opened EventBusTheorems

  // ---- What abandoned pools imply ----

  predicate Retired(k: Clients, c: nat) {
    c in k.closing || c in k.closed || c in k.leaked
  }

  /** The drain of the job's pool was cancelled and its client is still installed. */
  predicate Stranded(k: Clients, t: Traffic, j: Job) {
    j.pool in t.abandoned && k.publisher == Some(j.client)
  }

  /**
   A queued job's client is or was installed; a stranded job means that the bus is stopped, with
   nothing left to drain.
   */
  ghost predicate JobSafe(c: Control, k: Clients, t: Traffic, j: Job) {
    && (k.publisher == Some(j.client) || Retired(k, j.client))
    && (Stranded(k, t, j) ==> c.stopped && t.pool.None? && !c.stop.DrainingPublishes?)
  }

  ghost predicate Pools(c: Control, k: Clients, t: Traffic) {
    && (forall e :: e in t.abandoned ==> e < t.nextPool)
    && (t.pool.Some? ==> t.pool.value < t.nextPool && t.pool.value !in t.abandoned)
    && (c.stop.DrainingPublishes? ==> c.stop.pool < t.nextPool)
    && (c.stop.StoppingPublisher? || c.stop == Finishing(true) ==> k.publisher.None?)
    && (forall j :: j in t.jobs ==> JobSafe(c, k, t, j))
  }

  /** The step leaves the publisher, its traffic and the course of `stop()` alone. */
  predicate IsAside(step: Step) {
    || step.Subscribe? || step.PublishCancelled? || step.ConstructionDone? || step.ConstructionFails?
    || step.CloserRuns? || step.CloseRuns? || step.StartEnters? || step.StartResumes? || step.StartCancelled?
    || step.StartEnds? || IsPullStep(step)
  }

  lemma {:induction false} PullsAside(b: Bus, step: Step)
    requires IsPullStep(step) || step.Subscribe?
    ensures var b' := Apply(b, step);
            b'.traffic == b.traffic && b'.clients == b.clients && b'.control == b.control
  {
  }

  lemma {:induction false} StartsAside(b: Bus, step: Step)
    requires step.StartEnters? || step.StartResumes? || step.StartCancelled? || step.StartEnds?
    ensures var b' := Apply(b, step);
            && b'.traffic == b.traffic && b'.clients.publisher == b.clients.publisher
            && b'.control.stop == b.control.stop && b'.control.stopped == b.control.stopped
  {
  }

  lemma {:induction false} AsideKeeps(b: Bus, step: Step)
    requires IsAside(step)
    ensures var b' := Apply(b, step);
            && b'.traffic == b.traffic && b'.clients.publisher == b.clients.publisher
            && b'.control.stop == b.control.stop && b'.control.stopped == b.control.stopped
  {
    if IsPullStep(step) || step.Subscribe? {
      PullsAside(b, step);
    } else if step.StartEnters? || step.StartResumes? || step.StartCancelled? || step.StartEnds? {
      StartsAside(b, step);
    }
  }

  lemma {:induction false} WithdrawRetires(k: Clients, lost: multiset<nat>, x: nat, c: nat)
    requires Retired(k, c)
    ensures Retired(WithdrawOne(k, lost, x), c) && Retired(Withdraw(k, lost), c)
  {
  }

  lemma {:induction false} CancelStartRetires(k: Clients, lost: multiset<nat>, c: nat)
    requires Retired(k, c)
    ensures Retired(CancelStart(k, lost), c)
  {
    if k.start.Aborting? { WithdrawRetires(k, lost, k.start.client, c); }
  }

  lemma {:induction false} StartRetires(b: Bus, step: Step, c: nat)
    requires step.StartEnters? || step.StartResumes? || step.StartCancelled? || step.StartEnds?
    requires Retired(b.clients, c)
    ensures Retired(Apply(b, step).clients, c)
  {
    match step
    case StartEnters => assert Retired(StartEntersStep(b).clients, c);
    case StartResumes => assert Retired(StartResumesStep(b).clients, c);
    case StartCancelled(lost) => CancelStartRetires(b.clients, lost, c);
    case StartEnds => assert Retired(StartEndsStep(b).clients, c);
  }

  lemma {:induction false} AsideRetires(b: Bus, step: Step, c: nat)
    requires IsAside(step) && Retired(b.clients, c)
    ensures Retired(Apply(b, step).clients, c)
  {
    if IsPullStep(step) || step.Subscribe? {
      PullsAside(b, step);
    } else if step.StartEnters? || step.StartResumes? || step.StartCancelled? || step.StartEnds? {
      StartRetires(b, step, c);
    }
  }

  lemma {:induction false} AsidePools(b: Bus, step: Step)
    requires IsAside(step) && Pools(b.control, b.clients, b.traffic)
    ensures var b' := Apply(b, step); Pools(b'.control, b'.clients, b'.traffic)
  {
    AsideKeeps(b, step);
    var b' := Apply(b, step);
    forall j | j in b'.traffic.jobs ensures JobSafe(b'.control, b'.clients, b'.traffic, j) {
      assert JobSafe(b.control, b.clients, b.traffic, j);
      if Retired(b.clients, j.client) { AsideRetires(b, step, j.client); }
    }
  }

  // ---- Publishing ----

  lemma {:induction false} SendPools(b: Bus, client: nat, message: nat)
    requires Pools(b.control, b.clients, b.traffic) && b.clients.publisher == Some(client)
    requires Queued(b.control.stop, b.clients.publisher, b.traffic) && Flags(b.control, b.clients)
    ensures var b' := Send(b, client, message); Pools(b'.control, b'.clients, b'.traffic)
  {
    if !b.control.stopped {
      var t, t' := b.traffic, Submit(b.traffic, client, message);
      forall j | j in t'.jobs ensures JobSafe(b.control, b.clients, t', j) {
        if j in t.jobs { assert JobSafe(b.control, b.clients, t, j); }
      }
    }
  }

  /** Clients that wait to be installed have no jobs yet. */
  lemma {:induction false} InstallPools(b: Bus, c: nat)
    requires Pools(b.control, b.clients, b.traffic) && HeldOnce(b.clients, c)
    requires c in b.clients.waiters && c in b.clients.built && b.clients.publisher.None?
    requires !b.control.stopped && Flags(b.control, b.clients)
    ensures Pools(b.control, Install(b.clients, c), b.traffic)
  {
    forall j | j in b.traffic.jobs ensures JobSafe(b.control, Install(b.clients, c), b.traffic, j) {
      assert JobSafe(b.control, b.clients, b.traffic, j);
    }
  }

  lemma {:induction false} DiscardPools(c: Control, k: Clients, t: Traffic, x: nat)
    requires Pools(c, k, t)
    ensures Pools(c, Discard(k, x), t)
  {
    forall j | j in t.jobs ensures JobSafe(c, Discard(k, x), t, j) { assert JobSafe(c, k, t, j); }
  }

  lemma {:induction false} AwaitPools(c: Control, k: Clients, t: Traffic, w: Waiter)
    requires Pools(c, k, t)
    ensures Pools(c, Await(k, w), t)
  {
    forall j | j in t.jobs ensures JobSafe(c, Await(k, w), t, j) { assert JobSafe(c, k, t, j); }
  }

  lemma {:induction false} PublishPools(b: Bus, message: nat)
    requires Good(b) && Pools(b.control, b.clients, b.traffic)
    ensures var b' := PublishStep(b, message); Pools(b'.control, b'.clients, b'.traffic)
  {
    AwaitPools(b.control, b.clients, b.traffic, Waiter(b.control.generation, message));
    if b.clients.publisher.Some? { SendPools(b, b.clients.publisher.value, message); }
  }

  lemma {:induction false} PublishResumesPools(b: Bus, c: nat)
    requires Good(b) && Pools(b.control, b.clients, b.traffic)
    ensures var b' := PublishResumesStep(b, c); Pools(b'.control, b'.clients, b'.traffic)
  {
    var k := b.clients;
    assert HeldOnce(k, c);
    if c in k.waiters && c in k.built {
      var w := k.waiters[c];
      DiscardPools(b.control, k, b.traffic, c);
      if b.control.stopped || b.control.stopping || b.control.generation != w.generation {
      } else if k.publisher.None? {
        InstallPools(b, c);
        StepFlags(b, PublishResumes(c));
        InstalledQueued(b, c);
        SendPools(b.(clients := Install(k, c)), c, w.message);
      } else {
        SendPools(b.(clients := Discard(k, c)), k.publisher.value, w.message);
      }
    }
  }

  lemma {:induction false} InstalledQueued(b: Bus, c: nat)
    requires Queued(b.control.stop, None, b.traffic) && b.clients.publisher.None?
    ensures Queued(b.control.stop, Some(c), b.traffic)
  {
    forall j | j in b.traffic.jobs ensures JobOk(b.control.stop, Some(c), b.traffic, j) {
      assert JobOk(b.control.stop, None, b.traffic, j);
    }
  }

  lemma {:induction false} JobPools(c: Control, k: Clients, t: Traffic, x: Job)
    requires Pools(c, k, t)
    ensures Pools(c, k, RunJob(t, x)) && Pools(c, k, CancelJob(t, x))
  {
    forall j | j in t.jobs ensures JobSafe(c, k, RunJob(t, x), j) && JobSafe(c, k, CancelJob(t, x), j) {
      assert JobSafe(c, k, t, j);
    }
  }

  // ---- stop() ----

  lemma {:induction false} StopBeginsPools(b: Bus)
    requires Pools(b.control, b.clients, b.traffic)
    ensures var b' := StopBeginsStep(b); Pools(b'.control, b'.clients, b'.traffic)
  {
    var b' := StopBeginsStep(b);
    forall j | j in b.traffic.jobs ensures JobSafe(b'.control, b'.clients, b'.traffic, j) {
      assert JobSafe(b.control, b.clients, b.traffic, j);
    }
  }

  lemma {:induction false} StopAdvancesPools(b: Bus)
    requires Flags(b.control, b.clients) && Pools(b.control, b.clients, b.traffic)
    ensures var b' := StopAdvancesStep(b); Pools(b'.control, b'.clients, b'.traffic)
  {
    var b' := StopAdvancesStep(b);
    forall j | j in b'.traffic.jobs ensures JobSafe(b'.control, b'.clients, b'.traffic, j) {
      assert JobSafe(b.control, b.clients, b.traffic, j);
    }
  }

  lemma {:induction false} StopCancelledPools(b: Bus, lost: multiset<nat>)
    requires Flags(b.control, b.clients) && Pools(b.control, b.clients, b.traffic)
    requires Queued(b.control.stop, b.clients.publisher, b.traffic)
    ensures var b' := StopCancelledStep(b, lost); Pools(b'.control, b'.clients, b'.traffic)
  {
    var b' := StopCancelledStep(b, lost);
    forall j | j in b.traffic.jobs ensures JobSafe(b'.control, b'.clients, b'.traffic, j) {
      assert JobSafe(b.control, b.clients, b.traffic, j);
      if Retired(b.clients, j.client) { StopCancelledRetires(b.control.stop, b.clients, lost, j.client); }
    }
  }

  lemma {:induction false} StopCancelledRetires(stop: StopPoint, k: Clients, lost: multiset<nat>, c: nat)
    requires Retired(k, c)
    ensures Retired(CancelledClients(stop, k, lost), c)
  {
    WithdrawRetires(k, lost, if stop.ClosingSubscriber? || stop.StoppingPublisher? then stop.client else 0, c);
  }

  lemma {:induction false} StepPools(b: Bus, step: Step)
    requires Good(b) && Pools(b.control, b.clients, b.traffic)
    ensures var b' := Apply(b, step); Pools(b'.control, b'.clients, b'.traffic)
  {
    match step
    case Publish(m) => PublishPools(b, m);
    case PublishResumes(c) => PublishResumesPools(b, c);
    case JobRuns(j) => JobPools(b.control, b.clients, b.traffic, j);
    case JobCancelled(j) => JobPools(b.control, b.clients, b.traffic, j);
    case StopBegins => StopBeginsPools(b);
    case StopAdvances => StopAdvancesPools(b);
    case StopCancelled(lost) => StopCancelledPools(b, lost);
    case _ => AsidePools(b, step);
  }

  /** The invariants hold in every reachable state. */
  ghost predicate Sound(b: Bus) {
    Good(b) && Pools(b.control, b.clients, b.traffic)
  }

  lemma {:induction false} StepSound(b: Bus, step: Step)
    requires Sound(b)
    ensures Sound(Apply(b, step))
  {
    StepGood(b, step);
    StepPools(b, step);
  }

  lemma {:induction false} RunSound(steps: seq<Step>)
    ensures Sound(Run(FRESH, steps))
  {
    if steps == [] {
    } else {
      var init, last := steps[..|steps| - 1], steps[|steps| - 1];
      RunSound(init);
      StepSound(Run(FRESH, init), last);
      Next(init, last);
      assert steps == init + [last];
    }
  }

  // ---- Runs that cancel no drain ----

  predicate CancelsADrain(b: Bus, step: Step) {
    step.StopCancelled? && b.control.stop.DrainingPublishes?
  }

  /** No step of `more`, taken from `b`, cancels a drain. */
  ghost predicate Calm(b: Bus, more: seq<Step>) {
    forall i :: 0 <= i < |more| ==> !CancelsADrain(Run(b, more[..i]), more[i])
  }

  lemma {:induction false} RunNext(b: Bus, more: seq<Step>, step: Step)
    ensures Run(b, more + [step]) == Apply(Run(b, more), step)
  {
    assert (more + [step])[..|more|] == more;
  }

  lemma {:induction false} CalmNext(b: Bus, more: seq<Step>, step: Step)
    ensures Calm(b, more + [step]) <==> Calm(b, more) && !CancelsADrain(Run(b, more), step)
  {
    var longer := more + [step];
    forall i | 0 <= i < |more| ensures longer[..i] == more[..i] && longer[i] == more[i] {}
    assert longer[..|more|] == more && longer[|more|] == step;
  }

  lemma {:induction false} CalmKeeps(b: Bus, more: seq<Step>)
    requires Sound(b) && Calm(b, more)
    ensures Sound(Run(b, more)) && Run(b, more).traffic.abandoned == b.traffic.abandoned
  {
    if more == [] {
    } else {
      var init, last := more[..|more| - 1], more[|more| - 1];
      assert more == init + [last];
      CalmNext(b, init, last);
      CalmKeeps(b, init);
      RunNext(b, init, last);
      StepSound(Run(b, init), last);
      CalmStepAbandonsNothing(Run(b, init), last);
    }
  }

  lemma {:induction false} CalmStepAbandonsNothing(b: Bus, step: Step)
    requires !CancelsADrain(b, step)
    ensures Apply(b, step).traffic.abandoned == b.traffic.abandoned
  {
    forall e ensures e in Apply(b, step).traffic.abandoned <==> e in b.traffic.abandoned { StepAbandons(b, step, e); }
  }

  ghost predicate Reaches(b: Bus, b': Bus) {
    exists more :: Calm(b, more) && Run(b, more) == b'
  }

  lemma {:induction false} ReachesSelf(b: Bus)
    ensures Reaches(b, b)
  {
    assert Calm(b, []) && Run(b, []) == b;
  }

  lemma {:induction false} ReachesNext(b: Bus, b': Bus, step: Step)
    requires Reaches(b, b') && !CancelsADrain(b', step)
    ensures Reaches(b, Apply(b', step))
  {
    var more :| Calm(b, more) && Run(b, more) == b';
    CalmNext(b, more, step);
    RunNext(b, more, step);
    assert Calm(b, more + [step]) && Run(b, more + [step]) == Apply(b', step);
  }

  // ---- Overtaking a stranded job ----

  /** The client's `stop()` has run and the job is still queued. */
  predicate Overtaken(b: Bus, j: Job) {
    j in b.traffic.jobs && j.client in b.clients.closed
  }

  /** On the way from `b0`: a stranded job. */
  ghost predicate OnTheWay(b0: Bus, b: Bus, j: Job) {
    Reaches(b0, b) && Sound(b) && j in b.traffic.jobs && Stranded(b.clients, b.traffic, j)
  }

  lemma {:induction false} Onward(b0: Bus, b: Bus, j: Job, step: Step)
    requires OnTheWay(b0, b, j) && !CancelsADrain(b, step)
    requires Apply(b, step).traffic == b.traffic && Apply(b, step).clients.publisher == b.clients.publisher
    ensures OnTheWay(b0, Apply(b, step), j)
  {
    ReachesNext(b0, b, step);
    StepSound(b, step);
  }

  lemma {:induction false} CancelEnds(b: Bus, i: nat)
    requires i < |b.pulls.loops|
    ensures var before, after := b.pulls.loops, Apply(b, LoopCancelled(i)).pulls.loops;
            |after| == |before| && after[i].phase.Ended? && forall k :: 0 <= k < i ==> after[k] == before[k]
  {
  }

  /** Cancel the tasks one by one. */
  lemma {:induction false} EndLoops(b0: Bus, b: Bus, j: Job, i: nat) returns (b': Bus)
    requires OnTheWay(b0, b, j) && i <= |b.pulls.loops|
    requires forall k :: 0 <= k < i ==> b.pulls.loops[k].phase.Ended?
    ensures OnTheWay(b0, b', j) && AllEnded(b'.pulls.loops) && b'.control == b.control
    decreases |b.pulls.loops| - i
  {
    if i == |b.pulls.loops| {
      b' := b;
    } else {
      var b1 := Apply(b, LoopCancelled(i));
      CancelEnds(b, i);
      PullsAside(b, LoopCancelled(i));
      Onward(b0, b, j, LoopCancelled(i));
      b' := EndLoops(b0, b1, j, i + 1);
    }
  }

  /** Finish a `stop()` that was cancelled. */
  lemma {:induction false} FinishStop(b0: Bus, b: Bus, j: Job) returns (b': Bus)
    requires OnTheWay(b0, b, j) && AllEnded(b.pulls.loops) && b.control.stop.Finishing?
    ensures OnTheWay(b0, b', j) && AllEnded(b'.pulls.loops) && b'.control.stop.NoStop?
  {
    Onward(b0, b, j, StopAdvances);
    b' := Apply(b, StopAdvances);
  }

  lemma {:induction false} BeginStop(b0: Bus, b: Bus, j: Job) returns (b': Bus)
    requires OnTheWay(b0, b, j) && AllEnded(b.pulls.loops) && b.control.stop.NoStop?
    ensures OnTheWay(b0, b', j) && AllEnded(b'.pulls.loops)
    ensures b'.control.stop.ClosingSubscriber? || b'.control.stop.Gathering?
  {
    Onward(b0, b, j, StopBegins);
    b' := Apply(b, StopBegins);
  }

  lemma {:induction false} CloseSubscriber(b0: Bus, b: Bus, j: Job) returns (b': Bus)
    requires OnTheWay(b0, b, j) && AllEnded(b.pulls.loops) && b.control.stop.ClosingSubscriber?
    ensures OnTheWay(b0, b', j) && AllEnded(b'.pulls.loops) && b'.control.stop.Gathering?
  {
    var c := b.control.stop.client;
    assert HeldOnce(b.clients, c);
    Onward(b0, b, j, CloseRuns(c));
    var b1 := Apply(b, CloseRuns(c));
    assert c !in b1.clients.closing;
    Onward(b0, b1, j, StopAdvances);
    b' := Apply(b1, StopAdvances);
  }

  lemma {:induction false} Gather(b0: Bus, b: Bus, j: Job) returns (b': Bus)
    requires OnTheWay(b0, b, j) && AllEnded(b.pulls.loops) && b.control.stop.Gathering?
    ensures OnTheWay(b0, b', j) && AllEnded(b'.pulls.loops) && b'.control.stop.DrainingPulls?
  {
    Onward(b0, b, j, StopAdvances);
    b' := Apply(b, StopAdvances);
  }

  /** With nothing to drain, `stop()` goes straight on to the client. */
  lemma {:induction false} ClientStops(b: Bus, j: Job)
    requires b.control.stop.DrainingPulls? && b.traffic.pool.None?
    requires j in b.traffic.jobs && b.clients.publisher == Some(j.client)
    ensures Overtaken(Apply(Apply(b, StopAdvances), CloseRuns(j.client)), j)
  {
    var b1 := Apply(b, StopAdvances);
    assert b1.clients == ReleasePublisher(b.clients) && b1.traffic == b.traffic;
  }

  lemma {:induction false} StopClient(b0: Bus, b: Bus, j: Job) returns (b': Bus)
    requires OnTheWay(b0, b, j) && b.control.stop.DrainingPulls?
    ensures Reaches(b0, b') && Overtaken(b', j)
  {
    assert JobSafe(b.control, b.clients, b.traffic, j);
    ClientStops(b, j);
    ReachesNext(b0, b, StopAdvances);
    ReachesNext(b0, Apply(b, StopAdvances), CloseRuns(j.client));
    b' := Apply(Apply(b, StopAdvances), CloseRuns(j.client));
  }

  lemma {:induction false} Overtake(b0: Bus, j: Job) returns (b: Bus)
    requires Sound(b0) && j in b0.traffic.jobs && Stranded(b0.clients, b0.traffic, j)
    ensures Reaches(b0, b) && Overtaken(b, j)
  {
    ReachesSelf(b0);
    b := EndLoops(b0, b0, j, 0);
    assert JobSafe(b.control, b.clients, b.traffic, j);
    if b.control.stop.Finishing? { b := FinishStop(b0, b, j); }
    if b.control.stop.NoStop? { b := BeginStop(b0, b, j); }
    if b.control.stop.ClosingSubscriber? { b := CloseSubscriber(b0, b, j); }
    if b.control.stop.Gathering? { b := Gather(b0, b, j); }
    b := StopClient(b0, b, j);
  }

  /**
   At any point of any run, a queued job whose client is installed can be overtaken by the stop
   of its client, without any further drain being cancelled, exactly if the drain of its pool
   was cancelled before.
   */
  lemma {:induction false} FlushMissedIff(steps: seq<Step>, j: Job, b: Bus)
    requires b == Run(FRESH, steps) && j in b.traffic.jobs && b.clients.publisher == Some(j.client)
    ensures (exists b' :: Reaches(b, b') && Overtaken(b', j)) <==> DrainCancelledIn(steps, j.pool)
  {
    RunSound(steps);
    AbandonedIff(steps, j.pool);
    if j.pool in b.traffic.abandoned {
      var b' := Overtake(b, j);
    }
    forall b' | Reaches(b, b') && Overtaken(b', j) ensures j.pool in b.traffic.abandoned {
      OvertakenWasAbandoned(b, b', j);
    }
  }

  lemma {:induction false} OvertakenWasAbandoned(b: Bus, b': Bus, j: Job)
    requires Sound(b) && Reaches(b, b') && Overtaken(b', j)
    ensures j.pool in b.traffic.abandoned
  {
    var more :| Calm(b, more) && Run(b, more) == b';
    CalmKeeps(b, more);
    assert HeldOnce(b'.clients, j.client);
    assert JobOk(b'.control.stop, b'.clients.publisher, b'.traffic, j);
  }
}
