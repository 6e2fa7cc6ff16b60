/** What the steps of publish callers, executors and pull tasks do, in terms of messages, clients and tasks. */
module EventBusEffects {
  import opened Common
  import opened EventBus
  import opened EventBusHistory
  import opened EventBusSafety
  import opened EventBusTheorems

  // ---- Publishing ----

  /** Exactly one job, with this message and for this client, is handed to the pool. */
  ghost predicate SubmitsOne(t: Traffic, t': Traffic, client: nat, message: nat) {
    exists j: Job :: j.client == client && j.message == message && HandsIn(t, t', j)
  }

  ghost predicate HandsIn(t: Traffic, t': Traffic, j: Job) {
    && t'.submitted == t.submitted + multiset{j} && t'.jobs == t.jobs + multiset{j}
    && t'.enqueued == t.enqueued && t'.withdrawn == t.withdrawn && t'.abandoned == t.abandoned
    && t'.pool == Some(j.pool) && (t.pool.Some? ==> t'.pool == t.pool)
  }

  lemma {:induction false} SendHandsIn(b: Bus, client: nat, message: nat)
    requires !b.control.stopped
    ensures SubmitsOne(b.traffic, Send(b, client, message).traffic, client, message)
  {
    assert HandsIn(b.traffic, Send(b, client, message).traffic, Job(Pool(b.traffic), client, message));
  }

  /**
   What a `publish()` does at once, at any point of any run: on a stopped bus nothing; with a client
   installed it hands in exactly its message for that client; else it starts to build a new client,
   remembering its message and the generation.
   */
  lemma {:induction false} PublishExact(steps: seq<Step>, message: nat, b: Bus, b': Bus)
    requires b == Run(FRESH, steps) && b' == Apply(b, Publish(message))
    ensures b.control.stopped ==> b' == b
    ensures !b.control.stopped && b.clients.publisher.Some? ==>
              && b'.clients == b.clients && b'.control == b.control && b'.pulls == b.pulls
              && SubmitsOne(b.traffic, b'.traffic, b.clients.publisher.value, message)
    ensures !b.control.stopped && b.clients.publisher.None? ==>
              && b'.traffic == b.traffic && b'.clients.publisher.None?
              && exists c :: !Exists(b.clients, c) && c in b'.clients.constructing && c !in b.clients.waiters &&
                             b'.clients.waiters == b.clients.waiters[c := Waiter(b.control.generation, message)]
  {
    Reachable(steps);
    if !b.control.stopped {
      if b.clients.publisher.Some? {
        SendHandsIn(b, b.clients.publisher.value, message);
      } else {
        assert HeldOnce(b.clients, b.clients.next);
        assert !Exists(b.clients, b.clients.next);
      }
    }
  }

  /**
   What a suspended `publish()` does once its client is built: if no `stop()` has begun since, it
   hands in exactly its message, for the client it installs or for the one it finds installed;
   otherwise it hands in nothing and installs nothing.  A client it does not install goes to a
   background closer.
   */
  lemma {:induction false} PublishResumesExact(steps: seq<Step>, c: nat, b: Bus, b': Bus)
    requires b == Run(FRESH, steps) && b' == Apply(b, PublishResumes(c))
    requires c in b.clients.waiters && c in b.clients.built
    ensures c !in b'.clients.waiters
    ensures if !b.control.stopped && b.control.generation == b.clients.waiters[c].generation
            then var client := if b.clients.publisher.Some? then b.clients.publisher.value else c;
                 && b'.clients.publisher == Some(client)
                 && SubmitsOne(b.traffic, b'.traffic, client, b.clients.waiters[c].message)
                 && (client != c ==> c in b'.clients.closers)
            else b'.clients.publisher == b.clients.publisher && b'.traffic == b.traffic && c in b'.clients.closers
  {
    Reachable(steps);
    assert HeldOnce(b.clients, c);
    var w := b.clients.waiters[c];
    if !b.control.stopped && b.control.generation == w.generation {
      if b.clients.publisher.None? {
        SendHandsIn(b.(clients := Install(b.clients, c)), c, w.message);
      } else {
        SendHandsIn(b.(clients := Discard(b.clients, c)), b.clients.publisher.value, w.message);
      }
    }
  }

  /** A queued job ends up enqueued in its client, or withdrawn by its caller, once. */
  lemma {:induction false} JobsMoveOn(b: Bus, j: Job)
    requires j in b.traffic.jobs
    ensures var t, t' := b.traffic, Apply(b, JobRuns(j)).traffic;
            t'.enqueued == t.enqueued + multiset{j} && t'.jobs == t.jobs - multiset{j} && t'.withdrawn == t.withdrawn
    ensures var t, t' := b.traffic, Apply(b, JobCancelled(j)).traffic;
            t'.withdrawn == t.withdrawn + multiset{j} && t'.jobs == t.jobs - multiset{j} && t'.enqueued == t.enqueued
  {
  }

  // ---- Clients in the executor ----

  /**
   A construction that succeeds yields a built client, with the holder it had; one that fails
   leaves nothing behind.
   */
  lemma {:induction false} ConstructionEnds(steps: seq<Step>, c: nat, b: Bus)
    requires b == Run(FRESH, steps) && c in b.clients.constructing
    ensures var k := Apply(b, ConstructionDone(c)).clients;
            c in k.built && c !in k.constructing && Holders(k, c) == Holders(b.clients, c)
    ensures var k := Apply(b, ConstructionFails(c)).clients;
            !Exists(k, c) && Holders(k, c) == 0
  {
    Reachable(steps);
    assert HeldOnce(b.clients, c);
  }

  /** A caller that is cancelled, and a closer whose client is built, pass the client on. */
  lemma {:induction false} ClientsMoveOn(b: Bus, c: nat)
    ensures c in b.clients.waiters ==>
              var k := Apply(b, PublishCancelled(c)).clients;
              c !in k.waiters && k.closers == b.clients.closers + multiset{c}
    ensures c in b.clients.closers && c in b.clients.built ==>
              var k := Apply(b, CloserRuns(c)).clients;
              k.closers == b.clients.closers - multiset{c} && k.closing == b.clients.closing + multiset{c}
    ensures c in b.clients.closing ==>
              var k := Apply(b, CloseRuns(c)).clients;
              k.closing == b.clients.closing - multiset{c} && k.closed == b.clients.closed + multiset{c}
  {
  }

  // ---- start() ----

  /** A subscription before `start()` adds its topic at the end, once; afterwards it is refused. */
  lemma {:induction false} SubscribeExact(b: Bus, topic: string)
    ensures var b' := Apply(b, Subscribe(topic));
            && b'.pulls.handlers ==
               (if b.control.started || topic in b.pulls.handlers then b.pulls.handlers else b.pulls.handlers + [topic])
            && b'.pulls.loops == b.pulls.loops && b'.control == b.control && b'.clients == b.clients
  {
  }

  /**
   What `start()` does at once: nothing if started or in progress; it is done if there is nothing
   to subscribe; else it builds a client.
   */
  lemma {:induction false} StartEntersExact(steps: seq<Step>, b: Bus, b': Bus)
    requires b == Run(FRESH, steps) && b' == Apply(b, StartEnters)
    ensures if b.control.started || !b.clients.start.NoStart? then b' == b
            else if b.pulls.handlers == [] then b'.control.started && b'.clients == b.clients
            else && b'.clients.start.Building? && b'.clients.start.generation == b.control.generation
                 && !Exists(b.clients, b'.clients.start.client) && b'.clients.start.client in b'.clients.constructing
                 && b'.control == b.control
    ensures b'.pulls == b.pulls && b'.traffic == b.traffic
  {
    Reachable(steps);
    assert HeldOnce(b.clients, b.clients.next);
  }

  /** A cancelled `start()` leaves its client to a closer; one that aborted is over once its client is closed. */
  lemma {:induction false} StartEndsExact(b: Bus)
    ensures b.clients.start.Building? ==>
              var k := Apply(b, StartCancelled(multiset{})).clients;
              k.start.NoStart? && k.closers == b.clients.closers + multiset{b.clients.start.client}
    ensures b.clients.start.Aborting? ==>
              Apply(b, StartCancelled(multiset{})).clients.start.NoStart? &&
              (Apply(b, StartEnds).clients.start.NoStart? <==> b.clients.start.client !in b.clients.closing)
  {
  }

  // ---- Pull tasks ----

  /** Where a task is after a step of its own, from where it was. */
  ghost predicate Moves(b: Bus, step: Step, i: nat, phase: Phase)
    requires i < |b.pulls.loops|
  {
    Apply(b, step).pulls.loops == b.pulls.loops[i := Loop(b.pulls.loops[i].topic, phase)]
  }

  /**
   A fresh task polls if the bus is up; errors make a polling task sleep and then poll again,
   unless `stop()` is under way.
   */
  lemma {:induction false} TasksPoll(b: Bus, i: nat)
    requires i < |b.pulls.loops|
    ensures b.pulls.loops[i].phase.Scheduled? ==>
              Moves(b, LoopBegins(i), i,
                    if !b.control.stopped && b.clients.subscriber.Some? && b.pulls.pool then Polling else Ended)
    ensures b.pulls.loops[i].phase.Polling? ==>
              Moves(b, LoopErrors(i), i, if b.control.stopping then Ended else BackingOff)
    ensures b.pulls.loops[i].phase.BackingOff? ==>
              Moves(b, LoopRetries(i), i, if b.control.stopping then Ended else Polling)
    ensures b.pulls.loops[i].phase.Polling? && b.control.stopping ==> Moves(b, LoopExits(i), i, Ended)
  {
  }

  /**
   A permanent error, and a cancellation inside the `try` outside a teardown, end a task and record
   its topic; no other step records one.
   */
  lemma {:induction false} TasksFail(b: Bus, i: nat)
    requires i < |b.pulls.loops| && !b.pulls.loops[i].phase.Ended?
    ensures Moves(b, LoopCancelled(i), i, Ended)
    ensures Apply(b, LoopCancelled(i)).pulls.failed ==
            b.pulls.failed +
            if b.pulls.loops[i].phase.Polling? && !b.control.stopping then {b.pulls.loops[i].topic} else {}
    ensures b.pulls.loops[i].phase.Polling? ==>
              && Moves(b, LoopFails(i), i, Ended)
              && Apply(b, LoopFails(i)).pulls.failed == b.pulls.failed + {b.pulls.loops[i].topic}
  {
  }

  // ---- stop() ----

  /** What `stop()` awaits at this point is not over yet. */
  ghost predicate Waiting(b: Bus) {
    match b.control.stop
    case NoStop => true
    case ClosingSubscriber(c) => c in b.clients.closing
    case Gathering => exists i :: 0 <= i < |b.pulls.loops| && !b.pulls.loops[i].phase.Ended?
    case DrainingPulls => false
    case DrainingPublishes(pool) => exists j :: j in b.traffic.jobs && j.pool == pool
    case StoppingPublisher(c) => c in b.clients.closing
    case Finishing(_) => exists i :: 0 <= i < |b.pulls.loops| && !b.pulls.loops[i].phase.Ended?
  }

  /** `stop()` moves exactly if what it awaits is over. */
  lemma {:induction false} StopAdvancesIff(b: Bus)
    ensures Apply(b, StopAdvances) == b <==> Waiting(b)
  {
    var b' := Apply(b, StopAdvances);
    if !Waiting(b) { assert b'.control.stop != b.control.stop; }
  }

  /** The order of the teardown: subscriber, tasks, pull pool, publish pool, publisher, flags. */
  lemma {:induction false} TeardownOrder(b: Bus)
    requires !Waiting(b)
    ensures var b' := Apply(b, StopAdvances);
            match b.control.stop
            case NoStop => true
            case ClosingSubscriber(_) => b'.control.stop == Gathering
            case Gathering => b'.control.stop == DrainingPulls && !b'.pulls.pool
            case DrainingPulls =>
              if b.traffic.pool.Some?
              then b'.control.stop == DrainingPublishes(b.traffic.pool.value) && b'.traffic.pool.None?
              else TakesOut(b, b')
            case DrainingPublishes(_) => TakesOut(b, b')
            case StoppingPublisher(_) => b'.control.stop == Finishing(true)
            case Finishing(complete) =>
              && b'.control.stop == NoStop && b'.pulls.loops == [] && b'.pulls.failed == {} && !b'.control.stopping
              && b'.control.stopped == (b.control.stopped && !complete)
              && b'.control.started == (b.control.started && !complete)
              && b'.control.generation == b.control.generation
  {
  }

  /** The publisher, if any, is taken out and its `stop()` queued. */
  ghost predicate TakesOut(b: Bus, b': Bus) {
    && b'.clients.publisher.None?
    && match b.clients.publisher
       case None => b'.control.stop == Finishing(true) && b'.clients == b.clients
       case Some(c) => b'.control.stop == StoppingPublisher(c) && c in b'.clients.closing
  }

  /** `stop()` begins by raising the generation and both flags, and queues the close of the subscriber first. */
  lemma {:induction false} StopBeginsExact(b: Bus)
    requires b.control.stop.NoStop?
    ensures var b' := Apply(b, StopBegins);
            && b'.control.stopped && b'.control.stopping && b'.control.generation == b.control.generation + 1
            && b'.control.started == b.control.started && b'.pulls == b.pulls && b'.traffic == b.traffic
            && b'.clients.subscriber.None? && b'.clients.publisher == b.clients.publisher
            && match b.clients.subscriber
               case None => b'.control.stop == Gathering
               case Some(c) => b'.control.stop == ClosingSubscriber(c) && c in b'.clients.closing
  {
  }

  /** A cancelled `stop()` goes to its `finally` block, or leaves it, and resets no flag. */
  lemma {:induction false} StopCancelledExact(b: Bus, lost: multiset<nat>)
    requires !b.control.stop.NoStop?
    ensures var b' := Apply(b, StopCancelled(lost));
            && b'.control == b.control.(stop := if b.control.stop.Finishing? then NoStop else Finishing(false))
            && b'.pulls == b.pulls && b'.traffic.jobs == b.traffic.jobs && b'.traffic.pool == b.traffic.pool
            && b'.clients.publisher == b.clients.publisher && b'.clients.subscriber == b.clients.subscriber
  {
  }
}
