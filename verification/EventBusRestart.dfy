/**
 The bus never gets stuck: from every reachable state, once what is awaited is over, a `stop()`
 runs to its end and a following `start()` brings every topic back to a polling task.
 */
module EventBusRestart {
  import opened Common
  import opened EventBus
  import opened EventBusHistory
  import opened EventBusSafety
  import opened EventBusTheorems
  import opened EventBusFlush

  /** On the way from `b0`, by steps none of which cancels a drain. */
  ghost predicate Way(b0: Bus, b: Bus) {
    Reaches(b0, b) && Sound(b)
  }

  lemma {:induction false} WayNext(b0: Bus, b: Bus, step: Step)
    requires Way(b0, b) && !CancelsADrain(b, step)
    ensures Way(b0, Apply(b, step))
  {
    ReachesNext(b0, b, step);
    StepSound(b, step);
  }

  // ---- Running a stop() to its end ----

  /** Cancel the tasks one by one. */
  lemma {:induction false} EndTasks(b0: Bus, b: Bus, i: nat) returns (b': Bus)
    requires Way(b0, b) && i <= |b.pulls.loops|
    requires forall k :: 0 <= k < i ==> b.pulls.loops[k].phase.Ended?
    ensures Way(b0, b') && AllEnded(b'.pulls.loops)
    ensures b'.control == b.control && b'.clients == b.clients && b'.traffic == b.traffic
    ensures b'.pulls.handlers == b.pulls.handlers
    decreases |b.pulls.loops| - i
  {
    if i == |b.pulls.loops| {
      b' := b;
    } else {
      var b1 := Apply(b, LoopCancelled(i));
      CancelEnds(b, i);
      CancelKeepsHandlers(b, i);
      PullsAside(b, LoopCancelled(i));
      WayNext(b0, b, LoopCancelled(i));
      b' := EndTasks(b0, b1, i + 1);
    }
  }

  lemma {:induction false} CancelKeepsHandlers(b: Bus, i: nat)
    ensures Apply(b, LoopCancelled(i)).pulls.handlers == b.pulls.handlers
  {
  }

  /** A stop point with all tasks ended, and what stays put on the way. */
  ghost predicate Stopping(b0: Bus, b: Bus, handlers: seq<string>) {
    Way(b0, b) && AllEnded(b.pulls.loops) && b.pulls.handlers == handlers
  }

  lemma {:induction false} StopsAt(b: Bus)
    requires AllEnded(b.pulls.loops)
    ensures var b' := Apply(b, StopBegins);
            && b'.pulls == b.pulls
            && (b.control.stop.NoStop? ==> b'.control.stop.ClosingSubscriber? || b'.control.stop.Gathering?)
    ensures var b' := Apply(b, StopAdvances);
            && b'.pulls.handlers == b.pulls.handlers && AllEnded(b'.pulls.loops)
            && (b.control.stop.ClosingSubscriber? && b.control.stop.client !in b.clients.closing ==>
                  b'.control.stop.Gathering?)
            && (b.control.stop.Gathering? ==> b'.control.stop.DrainingPulls?)
  {
  }

  /** Every pool is drained. */
  predicate AtPublisher(b: Bus) {
    b.control.stop.StoppingPublisher? || b.control.stop == Finishing(true)
  }

  lemma {:induction false} DrainsPulls(b: Bus)
    requires b.control.stop.DrainingPulls?
    ensures var b' := Apply(b, StopAdvances);
            && b'.traffic.pool.None?
            && (b'.control.stop.DrainingPublishes? || AtPublisher(b'))
  {
  }

  lemma {:induction false} DrainsPublishes(b: Bus)
    requires b.control.stop.DrainingPublishes? && PoolEmpty(b.traffic, b.control.stop.pool)
    ensures var b' := Apply(b, StopAdvances);
            b'.traffic == b.traffic && (b'.control.stop.StoppingPublisher? || b'.control.stop == Finishing(true))
  {
  }

  lemma {:induction false} StopsPublisher(b: Bus)
    requires b.control.stop.StoppingPublisher? && b.control.stop.client !in b.clients.closing
    ensures var b' := Apply(b, StopAdvances); b'.traffic == b.traffic && b'.control.stop == Finishing(true)
  {
  }

  lemma {:induction false} Finishes(b: Bus)
    requires b.control.stop.Finishing? && AllEnded(b.pulls.loops)
    ensures var b' := Apply(b, StopAdvances);
            && b'.control.stop.NoStop? && b'.traffic == b.traffic && b'.clients == b.clients && b'.pulls.loops == []
            && (b.control.stop.complete ==> !b'.control.stopped && !b'.control.stopping && !b'.control.started)
  {
  }

  /** A close that is awaited runs. */
  lemma {:induction false} ClosesOnce(b: Bus, c: nat)
    requires HeldOnce(b.clients, c)
    ensures var b' := Apply(b, CloseRuns(c));
            && c !in b'.clients.closing && b'.control == b.control && b'.pulls == b.pulls && b'.traffic == b.traffic
  {
  }

  lemma {:induction false} BeginStopping(b0: Bus, b: Bus, handlers: seq<string>) returns (b': Bus)
    requires Stopping(b0, b, handlers) && b.control.stop.NoStop?
    ensures Stopping(b0, b', handlers) && (b'.control.stop.ClosingSubscriber? || b'.control.stop.Gathering?)
  {
    StopsAt(b);
    WayNext(b0, b, StopBegins);
    b' := Apply(b, StopBegins);
  }

  /** The close that `stop()` awaits has run. */
  lemma {:induction false} AwaitClose(b0: Bus, b: Bus, handlers: seq<string>, c: nat) returns (b': Bus)
    requires Stopping(b0, b, handlers)
    ensures Stopping(b0, b', handlers) && c !in b'.clients.closing
    ensures b'.control == b.control && b'.traffic == b.traffic
  {
    assert HeldOnce(b.clients, c);
    ClosesOnce(b, c);
    WayNext(b0, b, CloseRuns(c));
    b' := Apply(b, CloseRuns(c));
  }

  lemma {:induction false} Advance(b0: Bus, b: Bus, handlers: seq<string>)
    requires Stopping(b0, b, handlers)
    ensures Stopping(b0, Apply(b, StopAdvances), handlers)
  {
    StopsAt(b);
    WayNext(b0, b, StopAdvances);
  }

  lemma {:induction false} PassSubscriber(b0: Bus, b: Bus, handlers: seq<string>) returns (b': Bus)
    requires Stopping(b0, b, handlers) && b.control.stop.ClosingSubscriber?
    ensures Stopping(b0, b', handlers) && b'.control.stop.Gathering?
  {
    var b1 := AwaitClose(b0, b, handlers, b.control.stop.client);
    StopsAt(b1);
    Advance(b0, b1, handlers);
    b' := Apply(b1, StopAdvances);
  }

  lemma {:induction false} PassGathering(b0: Bus, b: Bus, handlers: seq<string>) returns (b': Bus)
    requires Stopping(b0, b, handlers) && b.control.stop.Gathering?
    ensures Stopping(b0, b', handlers) && b'.control.stop.DrainingPulls?
  {
    StopsAt(b);
    Advance(b0, b, handlers);
    b' := Apply(b, StopAdvances);
  }

  lemma {:induction false} PassPulls(b0: Bus, b: Bus, handlers: seq<string>) returns (b': Bus)
    requires Stopping(b0, b, handlers) && b.control.stop.DrainingPulls?
    ensures Stopping(b0, b', handlers) && b'.traffic.pool.None?
    ensures b'.control.stop.DrainingPublishes? || AtPublisher(b')
  {
    DrainsPulls(b);
    Advance(b0, b, handlers);
    b' := Apply(b, StopAdvances);
  }

  /** The pool works off its queue. */
  lemma {:induction false} RunJobs(b0: Bus, b: Bus, handlers: seq<string>, pool: nat) returns (b': Bus)
    requires Stopping(b0, b, handlers) && b.control.stop == DrainingPublishes(pool)
    ensures Stopping(b0, b', handlers) && b'.control == b.control && PoolEmpty(b'.traffic, pool)
    ensures b'.traffic.pool == b.traffic.pool
    decreases |b.traffic.jobs|
  {
    if PoolEmpty(b.traffic, pool) {
      b' := b;
    } else {
      var j :| j in b.traffic.jobs && j.pool == pool;
      WayNext(b0, b, JobRuns(j));
      b' := RunJobs(b0, Apply(b, JobRuns(j)), handlers, pool);
    }
  }

  lemma {:induction false} PassPublishes(b0: Bus, b: Bus, handlers: seq<string>) returns (b': Bus)
    requires Stopping(b0, b, handlers) && b.control.stop.DrainingPublishes? && b.traffic.pool.None?
    ensures Stopping(b0, b', handlers) && b'.traffic.pool.None?
    ensures b'.control.stop.StoppingPublisher? || b'.control.stop == Finishing(true)
  {
    var b1 := RunJobs(b0, b, handlers, b.control.stop.pool);
    DrainsPublishes(b1);
    Advance(b0, b1, handlers);
    b' := Apply(b1, StopAdvances);
  }

  lemma {:induction false} PassPublisher(b0: Bus, b: Bus, handlers: seq<string>) returns (b': Bus)
    requires Stopping(b0, b, handlers) && b.control.stop.StoppingPublisher? && b.traffic.pool.None?
    ensures Stopping(b0, b', handlers) && b'.control.stop == Finishing(true) && b'.traffic.pool.None?
  {
    var b1 := AwaitClose(b0, b, handlers, b.control.stop.client);
    StopsPublisher(b1);
    Advance(b0, b1, handlers);
    b' := Apply(b1, StopAdvances);
  }

  lemma {:induction false} PassFinishing(b0: Bus, b: Bus, handlers: seq<string>) returns (b': Bus)
    requires Stopping(b0, b, handlers) && b.control.stop.Finishing?
    ensures Stopping(b0, b', handlers) && b'.control.stop.NoStop? && b'.traffic == b.traffic
    ensures b.control.stop.complete ==> !b'.control.stopped && !b'.control.stopping && !b'.control.started
    ensures b'.pulls.loops == [] && b'.clients == b.clients
  {
    Finishes(b);
    Advance(b0, b, handlers);
    b' := Apply(b, StopAdvances);
  }

  /** A bus on which a `stop()` has run to its end: as before its first `start()`, with nothing left open. */
  predicate Down(b: Bus) {
    && !b.control.stopped && !b.control.stopping && !b.control.started && b.control.stop.NoStop?
    && b.clients.publisher.None? && b.clients.subscriber.None? && b.traffic.pool.None? && b.pulls.loops == []
  }

  lemma {:induction false} FromPullsOn(b0: Bus, b: Bus, handlers: seq<string>) returns (b': Bus)
    requires Stopping(b0, b, handlers) && b.control.stop.DrainingPulls?
    ensures Stopping(b0, b', handlers) && Down(b')
  {
    b' := PassPulls(b0, b, handlers);
    if b'.control.stop.DrainingPublishes? { b' := PassPublishes(b0, b', handlers); }
    if b'.control.stop.StoppingPublisher? { b' := PassPublisher(b0, b', handlers); }
    assert b'.clients.publisher.None?;
    b' := PassFinishing(b0, b', handlers);
  }

  lemma {:induction false} WholeStop(b0: Bus, b: Bus, handlers: seq<string>) returns (b': Bus)
    requires Stopping(b0, b, handlers) && b.control.stop.NoStop?
    ensures Stopping(b0, b', handlers) && Down(b')
  {
    b' := BeginStopping(b0, b, handlers);
    if b'.control.stop.ClosingSubscriber? { b' := PassSubscriber(b0, b', handlers); }
    b' := PassGathering(b0, b', handlers);
    b' := FromPullsOn(b0, b', handlers);
  }

  /** Whatever `stop()` is awaiting, it gets past it. */
  lemma {:induction false} PassAll(b0: Bus, b: Bus, handlers: seq<string>) returns (b': Bus)
    requires Stopping(b0, b, handlers)
    ensures Stopping(b0, b', handlers) && b'.control.stop.NoStop?
  {
    b' := b;
    if b'.control.stop.ClosingSubscriber? { b' := PassSubscriber(b0, b', handlers); }
    if b'.control.stop.Gathering? { b' := PassGathering(b0, b', handlers); }
    if b'.control.stop.DrainingPulls? { b' := FromPullsOn(b0, b', handlers); }
    if b'.control.stop.DrainingPublishes? { b' := PassPublishes(b0, b', handlers); }
    if b'.control.stop.StoppingPublisher? { b' := PassPublisher(b0, b', handlers); }
    if b'.control.stop.Finishing? { b' := PassFinishing(b0, b', handlers); }
  }

  lemma {:induction false} StopFrom(b0: Bus) returns (b: Bus)
    requires Sound(b0)
    ensures Way(b0, b) && Down(b) && b.pulls.handlers == b0.pulls.handlers
  {
    ReachesSelf(b0);
    b := EndTasks(b0, b0, 0);
    b := PassAll(b0, b, b0.pulls.handlers);
    b := WholeStop(b0, b, b0.pulls.handlers);
  }

  /** From every reachable state a `stop()` can run to its end, and leaves nothing open. */
  lemma {:induction false} StopCanComplete(steps: seq<Step>)
    ensures exists b :: Reaches(Run(FRESH, steps), b) && Down(b)
  {
    RunSound(steps);
    var b := StopFrom(Run(FRESH, steps));
  }

  // ---- Starting again ----

  /** The bus is up: every topic has a task of its own, the first `n` polling and the rest about to. */
  predicate Up(b: Bus, handlers: seq<string>, n: nat) {
    && b.control.started && !b.control.stopped && b.clients.subscriber.Some? && b.pulls.pool && b.pulls.failed == {}
    && b.pulls.handlers == handlers && |b.pulls.loops| == |handlers|
    && forall i :: 0 <= i < |handlers| ==> b.pulls.loops[i] == Loop(handlers[i], if i < n then Polling else Scheduled)
  }

  lemma {:induction false} GivesUpStart(b: Bus)
    ensures var b' := Apply(b, StartCancelled(multiset{}));
            b'.clients.start.NoStart? && b'.pulls == b.pulls && (Down(b) ==> Down(b'))
  {
  }

  lemma {:induction false} Enters(b: Bus)
    requires Down(b) && b.clients.start.NoStart? && b.pulls.handlers != []
    ensures var b' := Apply(b, StartEnters);
            && Down(b') && b'.pulls == b.pulls && b'.clients.start.Building?
            && b'.clients.start.generation == b'.control.generation
            && b'.clients.start.client in b'.clients.constructing
  {
  }

  lemma {:induction false} Builds(b: Bus, c: nat)
    requires Down(b) && c in b.clients.constructing
    ensures var b' := Apply(b, ConstructionDone(c));
            Down(b') && b'.pulls == b.pulls && b'.control == b.control && b'.clients.start == b.clients.start &&
            c in b'.clients.built
  {
  }

  lemma {:induction false} Resumes(b: Bus)
    requires Down(b) && b.pulls.failed == {} && b.clients.start.Building?
    requires b.clients.start.generation == b.control.generation && b.clients.start.client in b.clients.built
    ensures Up(Apply(b, StartResumes), b.pulls.handlers, 0)
  {
  }

  lemma {:induction false} StartAgain(b0: Bus, b: Bus) returns (b': Bus)
    requires Way(b0, b) && Down(b) && b.pulls.handlers != []
    ensures Way(b0, b') && Up(b', b.pulls.handlers, 0)
  {
    GivesUpStart(b);
    WayNext(b0, b, StartCancelled(multiset{}));
    var b1 := Apply(b, StartCancelled(multiset{}));
    Enters(b1);
    WayNext(b0, b1, StartEnters);
    var b2 := Apply(b1, StartEnters);
    var c := b2.clients.start.client;
    Builds(b2, c);
    WayNext(b0, b2, ConstructionDone(c));
    var b3 := Apply(b2, ConstructionDone(c));
    NoFailures(b3);
    Resumes(b3);
    WayNext(b0, b3, StartResumes);
    b' := Apply(b3, StartResumes);
  }

  lemma {:induction false} NoFailures(b: Bus)
    requires Sound(b) && Down(b)
    ensures b.pulls.failed == {}
  {
  }

  lemma {:induction false} TaskBegins(b: Bus, handlers: seq<string>, n: nat)
    requires Up(b, handlers, n) && n < |handlers|
    ensures Up(Apply(b, LoopBegins(n)), handlers, n + 1)
  {
  }

  lemma {:induction false} TasksBegin(b0: Bus, b: Bus, handlers: seq<string>, n: nat) returns (b': Bus)
    requires Way(b0, b) && n <= |handlers| && Up(b, handlers, n)
    ensures Way(b0, b') && Up(b', handlers, |handlers|)
    decreases |handlers| - n
  {
    if n == |handlers| {
      b' := b;
    } else {
      TaskBegins(b, handlers, n);
      WayNext(b0, b, LoopBegins(n));
      b' := TasksBegin(b0, Apply(b, LoopBegins(n)), handlers, n + 1);
    }
  }

  /**
   From every reachable state with subscriptions the bus can be stopped and started until every
   topic has a polling task.
   */
  lemma {:induction false} CanAlwaysRestart(steps: seq<Step>, b0: Bus)
    requires b0 == Run(FRESH, steps) && b0.pulls.handlers != []
    ensures exists b :: Reaches(b0, b) && Up(b, b0.pulls.handlers, |b0.pulls.handlers|)
  {
    RunSound(steps);
    var b := StopFrom(b0);
    b := StartAgain(b0, b);
    b := TasksBegin(b0, b, b0.pulls.handlers, 0);
  }

  // ---- Health, both ways ----

  /** On a bus that is up, only its topics are recorded as failed, and none both as failed and unseen. */
  ghost predicate Recorded(c: Control, p: Pulls) {
    c.started && !c.stopped ==> forall t :: t in p.failed ==> t in p.handlers && t !in p.unmarked
  }

  lemma {:induction false} LoopsRecorded(b: Bus, step: Step)
    requires IsPullStep(step) && Pulling(b.control, b.clients, b.pulls) && Recorded(b.control, b.pulls)
    ensures Recorded(b.control, Apply(b, step).pulls)
  {
    var p := b.pulls;
    if b.control.started && !b.control.stopped && step.i < |p.loops| {
      assert LoopOk(p, p.loops[step.i], p.handlers[step.i]);
    }
  }

  lemma {:induction false} LifecycleRecorded(b: Bus, step: Step)
    requires IsLifecycle(step) && Pulling(b.control, b.clients, b.pulls) && Recorded(b.control, b.pulls)
    requires Flags(b.control, b.clients)
    ensures var b' := Apply(b, step); Recorded(b'.control, b'.pulls)
  {
  }

  lemma {:induction false} StepRecorded(b: Bus, step: Step)
    requires Good(b) && Recorded(b.control, b.pulls)
    ensures var b' := Apply(b, step); Recorded(b'.control, b'.pulls)
  {
    if IsPullStep(step) {
      PullsAside(b, step);
      LoopsRecorded(b, step);
    } else if IsLifecycle(step) {
      LifecycleRecorded(b, step);
    } else if step.Subscribe? {
    } else {
      OthersLeavePulls(b, step);
      OthersLeaveFlags(b, step);
    }
  }

  lemma {:induction false} RunRecorded(steps: seq<Step>)
    ensures Recorded(Run(FRESH, steps).control, Run(FRESH, steps).pulls)
  {
    if steps == [] {
    } else {
      var init, last := steps[..|steps| - 1], steps[|steps| - 1];
      RunRecorded(init);
      Reachable(init);
      StepRecorded(Run(FRESH, init), last);
      Next(init, last);
      assert steps == init + [last];
    }
  }

  /** The topic's task is live, or was cancelled unseen since the last completed `start()`. */
  ghost predicate Attended(steps: seq<Step>, p: Pulls, i: nat)
    requires i < |p.handlers| == |p.loops|
  {
    p.loops[i].phase.Ended? ==> CancelledUnseen(steps, p.handlers[i])
  }

  /**
   A bus with subscriptions reports healthy exactly if it is started, not stopped, and no task
   ended but those cancelled unseen.
   */
  lemma {:induction false} HealthyIff(steps: seq<Step>, b: Bus)
    requires b == Run(FRESH, steps) && b.pulls.handlers != []
    ensures IsHealthy(b) <==>
            && b.control.started && !b.control.stopped && |b.pulls.loops| == |b.pulls.handlers|
            && forall i :: 0 <= i < |b.pulls.handlers| ==> Attended(steps, b.pulls, i)
  {
    Reachable(steps);
    RunRecorded(steps);
    var p := b.pulls;
    if b.control.started && !b.control.stopped {
      forall i | 0 <= i < |p.handlers|
        ensures Attended(steps, p, i) <==> (p.loops[i].phase.Ended? ==> p.handlers[i] in p.unmarked)
        ensures LoopOk(p, p.loops[i], p.handlers[i])
      {
        UnmarkedIff(steps, p.handlers[i]);
      }
      FailedMeansEnded(p);
    }
  }

  lemma {:induction false} FailedMeansEnded(p: Pulls)
    requires Looping(p) && forall t :: t in p.failed ==> t in p.handlers && t !in p.unmarked
    ensures p.failed == {} <==>
            forall i :: 0 <= i < |p.handlers| ==> (p.loops[i].phase.Ended? ==> p.handlers[i] in p.unmarked)
  {
    if p.failed != {} {
      var t :| t in p.failed;
      var i :| 0 <= i < |p.handlers| && p.handlers[i] == t;
      assert LoopOk(p, p.loops[i], t);
    } else {
      forall i | 0 <= i < |p.handlers| ensures p.loops[i].phase.Ended? ==> p.handlers[i] in p.unmarked {
        assert LoopOk(p, p.loops[i], p.handlers[i]);
      }
    }
  }
}
