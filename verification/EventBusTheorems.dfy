/** What holds in every reachable state of the event bus, and where its guarantees end. */
module EventBusTheorems {
  import opened Common
  import opened EventBus
  import opened EventBusHistory
  import opened EventBusSafety

  lemma {:induction false} Reachable(steps: seq<Step>)
    ensures Good(Run(FRESH, steps))
  {
    if steps == [] {
    } else {
      Reachable(steps[..|steps| - 1]);
      StepGood(Run(FRESH, steps[..|steps| - 1]), steps[|steps| - 1]);
    }
  }

  // ---- Clients ----

  /**
   In every interleaving a built client is held in at most one place and closed at most once;
   it is held in none exactly if a cancellation in the run withdrew its queued close.
   */
  lemma {:induction false} ExactlyOneHolder(steps: seq<Step>, c: nat)
    requires c in Run(FRESH, steps).clients.built
    ensures var k := Run(FRESH, steps).clients;
            && Holders(k, c) <= 1 && k.closed[c] <= 1
            && (Holders(k, c) == 0 <==> CloseWithdrawn(steps, c))
  {
    Reachable(steps);
    LeakedIff(steps, c);
    assert HeldOnce(Run(FRESH, steps).clients, c);
  }

  /** The step does not cancel a teardown coroutine while the close it awaits is still queued. */
  predicate Gentle(step: Step) {
    step.StartCancelled? || step.StopCancelled? ==> step.lost == multiset{}
  }

  /** Without such cancellations every built client has one holder. */
  lemma {:induction false} GentleRunsNeverLeak(steps: seq<Step>, c: nat)
    requires forall i :: 0 <= i < |steps| ==> Gentle(steps[i])
    requires c in Run(FRESH, steps).clients.built
    ensures Holders(Run(FRESH, steps).clients, c) == 1
  {
    GentleWithdrawsNothing(steps, c);
    ExactlyOneHolder(steps, c);
  }

  lemma {:induction false} GentleWithdrawsNothing(steps: seq<Step>, c: nat)
    requires forall i :: 0 <= i < |steps| ==> Gentle(steps[i])
    ensures !CloseWithdrawn(steps, c)
  {
    var p := (b, step) => Withdraws(b, step, c);
    forall i | 0 <= i < |steps| ensures !HeldAt(steps, i, p) {
      assert Gentle(steps[i]);
    }
  }

  /** An installed client leaves its field only when `stop()` takes it out and queues its close. */
  lemma {:induction false} NeverOverwritten(steps: seq<Step>, step: Step)
    ensures var k, k' := Run(FRESH, steps).clients, Apply(Run(FRESH, steps), step).clients;
            && (k.publisher.Some? && k'.publisher != k.publisher ==>
                  step.StopAdvances? && k'.publisher.None? && k.publisher.value in k'.closing)
            && (k.subscriber.Some? && k'.subscriber != k.subscriber ==>
                  step.StopBegins? && k'.subscriber.None? && k.subscriber.value in k'.closing)
  {
    Reachable(steps);
    FieldsKept(Run(FRESH, steps), step);
  }

  lemma {:induction false} FieldsKept(b: Bus, step: Step)
    requires Flags(b.control, b.clients)
    ensures var k, k' := b.clients, Apply(b, step).clients;
            && (k.publisher.Some? && k'.publisher != k.publisher ==>
                  step.StopAdvances? && k'.publisher.None? && k.publisher.value in k'.closing)
            && (k.subscriber.Some? && k'.subscriber != k.subscriber ==>
                  step.StopBegins? && k'.subscriber.None? && k.subscriber.value in k'.closing)
  {
  }

  // ---- start() against stop() ----

  /**
   When `start()` gets its client, either it ends with one fresh task per topic on that client,
   no `stop()` having begun since it was entered; or a `stop()` has begun since, or is under
   way, and it leaves no task, no subscriber, and its client queued for close.
   */
  lemma {:induction false} StartAllOrNothing(steps: seq<Step>)
    requires var k := Run(FRESH, steps).clients; k.start.Building? && k.start.client in k.built
    ensures var b := Run(FRESH, steps);
            var b' := Apply(b, StartResumes);
            var c := b.clients.start.client;
            if b.control.stopped || b.control.generation > b.clients.start.generation
            then && b'.pulls.loops == [] && !b'.control.started
                 && b'.clients.subscriber.None? && c in b'.clients.closing
            else && b'.control.started && !b'.control.stopped && b'.clients.subscriber == Some(c) && b'.pulls.pool
                 && |b'.pulls.loops| == |b'.pulls.handlers|
                 && (forall i :: 0 <= i < |b'.pulls.loops| ==>
                                   b'.pulls.loops[i] == Loop(b'.pulls.handlers[i], Scheduled))
  {
    Reachable(steps);
  }

  /** Tasks exist outside a teardown only if no `stop()` began after their `start()` was entered. */
  lemma {:induction false} NoResurrection(steps: seq<Step>)
    ensures var b := Run(FRESH, steps);
            b.pulls.loops != [] && !b.control.stopped ==> b.control.startedAt == b.control.generation
  {
    Reachable(steps);
  }

  /** `start()` with the generation check left out. */
  function StartResumesFlagsOnly(b: Bus): Bus {
    if !b.clients.start.Building? || b.clients.start.client !in b.clients.built then b
    else if b.control.stopping || b.control.stopped then b.(clients := AbortStart(b.clients))
    else Started(b)
  }

  /** A `stop()` has begun while `start()` waits for its client. */
  lemma {:induction false} StopDuringStart() returns (steps: seq<Step>)
    ensures var b := Run(FRESH, steps);
            && b.control == Control(true, true, false, 1, 0, Gathering)
            && b.clients.start == Building(0, 0) && b.clients.constructing == {0} && b.clients.built == {}
            && b.clients.subscriber.None? && b.clients.publisher.None?
            && b.pulls == Pulls(["t"], false, [], {}, {}) && b.traffic.pool.None?
  {
    steps := [];
    Next(steps, Subscribe("t")); steps := steps + [Subscribe("t")];
    assert Run(FRESH, steps).pulls == Pulls(["t"], false, [], {}, {}) by { assert [] + ["t"] == ["t"]; }
    Next(steps, StartEnters); steps := steps + [StartEnters];
    Next(steps, StopBegins); steps := steps + [StopBegins];
  }

  /** A subscribed bus whose `start()` was overtaken by a complete `stop()`. */
  lemma {:induction false} OvertakenStart() returns (steps: seq<Step>)
    ensures var b := Run(FRESH, steps);
            && b.control == Control(false, false, false, 1, 0, NoStop)
            && b.clients.start == Building(0, 0) && b.clients.built == {0} && b.clients.subscriber.None?
            && b.pulls == Pulls(["t"], false, [], {}, {})
  {
    steps := StopDuringStart();
    Next(steps, StopAdvances); steps := steps + [StopAdvances];
    Next(steps, StopAdvances); steps := steps + [StopAdvances];
    assert Run(FRESH, steps).control == Control(true, true, false, 1, 0, Finishing(true));
    Next(steps, StopAdvances); steps := steps + [StopAdvances];
    Next(steps, ConstructionDone(0)); steps := steps + [ConstructionDone(0)];
  }

  /**
   Checking the flags alone installs tasks on a bus that `stop()` has already walked past; the real
   check does not.
   */
  lemma {:induction false} FlagsOnlyResurrects() returns (steps: seq<Step>)
    ensures var b := Run(FRESH, steps);
            var bad := StartResumesFlagsOnly(b);
            && bad.pulls.loops != [] && IsHealthy(bad) && bad.control.startedAt < bad.control.generation
            && Apply(b, StartResumes).pulls.loops == []
  {
    steps := OvertakenStart();
  }

  // ---- Health ----

  /**
   On a bus that reports healthy, a topic has a live task exactly if its task was not cancelled
   outside its `try` since the last completed `start()`.
   */
  lemma {:induction false} HealthyMeansPulling(steps: seq<Step>, i: nat)
    requires var b := Run(FRESH, steps); IsHealthy(b) && i < |b.pulls.handlers|
    ensures var b := Run(FRESH, steps);
            && |b.pulls.loops| == |b.pulls.handlers| && b.clients.subscriber.Some?
            && b.pulls.loops[i].topic == b.pulls.handlers[i]
            && (!b.pulls.loops[i].phase.Ended? <==> !CancelledUnseen(steps, b.pulls.handlers[i]))
  {
    Reachable(steps);
    UnmarkedIff(steps, Run(FRESH, steps).pulls.handlers[i]);
    var p := Run(FRESH, steps).pulls;
    assert LoopOk(p, p.loops[i], p.handlers[i]);
  }

  /** The gap in the health report: a task cancelled while it sleeps after an error is never recorded. */
  lemma {:induction false} CancelledSleepIsInvisible() returns (steps: seq<Step>)
    ensures var b := Run(FRESH, steps);
            IsHealthy(b) && b.pulls.handlers == ["t"] && b.pulls.loops == [Loop("t", Ended)]
  {
    steps := RunningBus();
    Next(steps, LoopBegins(0)); steps := steps + [LoopBegins(0)];
    assert Run(FRESH, steps).pulls.loops == [Loop("t", Polling)];
    Next(steps, LoopErrors(0)); steps := steps + [LoopErrors(0)];
    assert Run(FRESH, steps).pulls.loops == [Loop("t", BackingOff)];
    Next(steps, LoopCancelled(0)); steps := steps + [LoopCancelled(0)];
  }

  lemma {:induction false} RunningBus() returns (steps: seq<Step>)
    ensures var b := Run(FRESH, steps);
            && b.control == Control(false, false, true, 0, 0, NoStop)
            && b.clients.subscriber == Some(0) && b.clients.built == {0} && b.clients.closing == multiset{}
            && b.clients.start.NoStart?
            && b.pulls == Pulls(["t"], true, [Loop("t", Scheduled)], {}, {})
  {
    steps := [];
    Next(steps, Subscribe("t")); steps := steps + [Subscribe("t")];
    assert Run(FRESH, steps).pulls == Pulls(["t"], false, [], {}, {}) by { assert [] + ["t"] == ["t"]; }
    Next(steps, StartEnters); steps := steps + [StartEnters];
    Next(steps, ConstructionDone(0)); steps := steps + [ConstructionDone(0)];
    Next(steps, StartResumes); steps := steps + [StartResumes];
    assert FreshLoops(["t"]) == [Loop("t", Scheduled)];
  }

  /** The gap in ownership: cancelling `stop()` while its close is queued leaves a built client nowhere. */
  lemma {:induction false} CancelledStopLeaks() returns (steps: seq<Step>)
    ensures var k := Run(FRESH, steps).clients;
            0 in k.built && Holders(k, 0) == 0
  {
    steps := RunningBus();
    Reachable(steps);
    Next(steps, StopBegins); steps := steps + [StopBegins];
    assert Run(FRESH, steps).control.stop == ClosingSubscriber(0);
    Next(steps, StopCancelled(multiset{0})); steps := steps + [StopCancelled(multiset{0})];
    Reachable(steps);
    assert HeldOnce(Run(FRESH, steps).clients, 0);
  }

  // ---- Publishing against stop() ----

  /**
   Once a client's `stop()` is queued or has run, every job ever submitted for it has been
   enqueued in it or withdrawn by its caller; only jobs in a pool whose drain was cancelled
   can still be waiting.
   */
  lemma {:induction false} FlushedBeforeStop(steps: seq<Step>, j: Job)
    requires var k := Run(FRESH, steps).clients; j.client in k.closing || j.client in k.closed
    requires !DrainCancelledIn(steps, j.pool)
    ensures var t := Run(FRESH, steps).traffic;
            j !in t.jobs && t.submitted[j] == t.enqueued[j] + t.withdrawn[j]
  {
    Reachable(steps);
    AbandonedIff(steps, j.pool);
    var b := Run(FRESH, steps);
    assert HeldOnce(b.clients, j.client);
    assert j in b.traffic.jobs ==> JobOk(b.control.stop, b.clients.publisher, b.traffic, j);
  }

  /** Nothing is submitted while `stop()` is in progress. */
  lemma {:induction false} NoSubmissionDuringStop(steps: seq<Step>, step: Step)
    requires !Run(FRESH, steps).control.stop.NoStop?
    ensures Apply(Run(FRESH, steps), step).traffic.submitted == Run(FRESH, steps).traffic.submitted
  {
    Reachable(steps);
    StoppedSubmitsNothing(Run(FRESH, steps), step);
  }

  lemma {:induction false} StoppedSubmitsNothing(b: Bus, step: Step)
    requires b.control.stopped
    ensures Apply(b, step).traffic.submitted == b.traffic.submitted
  {
  }

  /** After a cancelled drain a second `stop()` goes straight on to the client. */
  lemma {:induction false} SecondStop() returns (steps: seq<Step>)
    ensures var b := Run(FRESH, steps);
            && b.clients.closing == multiset{0} && b.clients.closed == multiset{}
            && b.traffic.jobs == multiset{Job(0, 0, 7)} && b.traffic.submitted == multiset{Job(0, 0, 7)}
  {
    steps := DrainCancelled();
    var b := Run(FRESH, steps);
    Next(steps, StopBegins); steps := steps + [StopBegins];
    assert Run(FRESH, steps).control.stop == Gathering && Run(FRESH, steps).clients == b.clients;
    Next(steps, StopAdvances); steps := steps + [StopAdvances];
    assert Run(FRESH, steps).control.stop == DrainingPulls && Run(FRESH, steps).clients == b.clients;
    Next(steps, StopAdvances); steps := steps + [StopAdvances];
  }

  /** The gap in the flush: after a cancelled drain, a second `stop()` flushes the client before the job reaches it. */
  lemma {:induction false} CancelledDrainLosesJobs() returns (steps: seq<Step>)
    ensures var b := Run(FRESH, steps);
            var j := Job(0, 0, 7);
            b.clients.closed == multiset{0} && j in b.traffic.jobs && j in b.traffic.submitted
  {
    steps := SecondStop();
    Next(steps, CloseRuns(0)); steps := steps + [CloseRuns(0)];
  }

  /** The drain of the pool is under way with one job queued. */
  lemma {:induction false} Draining() returns (steps: seq<Step>)
    ensures var b := Run(FRESH, steps);
            && b.control == Control(true, true, false, 1, 0, DrainingPublishes(0))
            && b.clients.publisher == Some(0) && b.clients.subscriber.None?
            && b.clients.closing == multiset{} && b.clients.closed == multiset{}
            && b.pulls.loops == []
            && b.traffic.pool.None? && b.traffic.jobs == multiset{Job(0, 0, 7)}
            && b.traffic.submitted == multiset{Job(0, 0, 7)}
  {
    steps := SubmittedOnce();
    var b := Run(FRESH, steps);
    Next(steps, StopBegins); steps := steps + [StopBegins];
    assert Run(FRESH, steps).control.stop == Gathering && Run(FRESH, steps).clients == b.clients;
    Next(steps, StopAdvances); steps := steps + [StopAdvances];
    assert Run(FRESH, steps).control.stop == DrainingPulls && Run(FRESH, steps).traffic == b.traffic;
    Next(steps, StopAdvances); steps := steps + [StopAdvances];
  }

  /** One job is queued when `stop()` is cancelled in the middle of draining its pool. */
  lemma {:induction false} DrainCancelled() returns (steps: seq<Step>)
    ensures var b := Run(FRESH, steps);
            && b.control == Control(true, false, false, 1, 0, NoStop)
            && b.clients.publisher == Some(0) && b.clients.subscriber.None?
            && b.clients.closing == multiset{} && b.clients.closed == multiset{}
            && b.pulls.loops == []
            && b.traffic.pool.None? && b.traffic.jobs == multiset{Job(0, 0, 7)}
            && b.traffic.submitted == multiset{Job(0, 0, 7)}
  {
    steps := Draining();
    Next(steps, StopCancelled(multiset{})); steps := steps + [StopCancelled(multiset{})];
    assert Run(FRESH, steps).control.stop == Finishing(false);
    Next(steps, StopAdvances); steps := steps + [StopAdvances];
  }

  lemma {:induction false} SubmittedOnce() returns (steps: seq<Step>)
    ensures var b := Run(FRESH, steps);
            && b.control == Control(false, false, false, 0, 0, NoStop)
            && b.clients.publisher == Some(0) && b.clients.subscriber.None?
            && b.clients.closing == multiset{} && b.clients.closed == multiset{}
            && b.pulls == Pulls([], false, [], {}, {})
            && b.traffic.pool == Some(0) && b.traffic.jobs == multiset{Job(0, 0, 7)}
            && b.traffic.submitted == multiset{Job(0, 0, 7)}
  {
    steps := [];
    Next(steps, Publish(7)); steps := steps + [Publish(7)];
    Next(steps, ConstructionDone(0)); steps := steps + [ConstructionDone(0)];
    Next(steps, PublishResumes(0)); steps := steps + [PublishResumes(0)];
  }
}
