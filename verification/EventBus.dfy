/**
 The lifecycle of the Pub/Sub event bus as a state machine.  Asyncio code interleaves only
 at `await`, so each stretch of code between two awaits is one atomic step; work handed to
 an executor, and its completion, are steps of their own.  Steps that are not enabled leave
 the bus unchanged.  At most one `start()` and one `stop()` are in progress at a time, and
 no topic is a broadcast topic.
 */
module EventBus {
  import opened Common

  /** A `publish()` suspended on its shielded client construction, with its generation snapshot. */
  datatype Waiter = Waiter(generation: nat, message: nat)

  /** A publish call handed to a publish pool. */
  datatype Job = Job(pool: nat, client: nat, message: nat)

  datatype StartPoint = NoStart | Building(client: nat, generation: nat) | Aborting(client: nat)

  /** Where `stop()` is suspended; `Finishing` are the awaits of its `finally` block. */
  datatype StopPoint =
    | NoStop
    | ClosingSubscriber(client: nat)
    | Gathering
    | DrainingPulls
    | DrainingPublishes(pool: nat)
    | StoppingPublisher(client: nat)
    | Finishing(complete: bool)

  /** A pull task: created, inside its `try`, asleep after an error, or done. */
  datatype Phase = Scheduled | Polling | BackingOff | Ended
  datatype Loop = Loop(topic: string, phase: Phase)

  /** Flags and counters of the bus, and where `stop()` is.  `startedAt` is the generation at
      which the last successful `start()` was entered. */
  datatype Control = Control(
    stopped: bool, stopping: bool, started: bool, generation: nat, startedAt: nat, stop: StopPoint)

  /**
   SDK clients and who holds them: the two fields of the bus, `publish()` callers suspended on
   a construction (keyed by its client), `start()`, and background closers.  In the executor a
   client is under construction or built, and its close call queued (`closing`) or run
   (`closed`).  `leaked` records clients whose close was withdrawn before it ran.
   */
  datatype Clients = Clients(
    publisher: Option<nat>, subscriber: Option<nat>, waiters: map<nat, Waiter>, start: StartPoint,
    closers: multiset<nat>, constructing: set<nat>, built: set<nat>,
    closing: multiset<nat>, closed: multiset<nat>, next: nat, leaked: multiset<nat>)

  /** Pull tasks.  `unmarked` records topics whose task was cancelled outside its `try`. */
  datatype Pulls = Pulls(
    handlers: seq<string>, pool: bool, loops: seq<Loop>, failed: set<string>, unmarked: set<string>)

  /**
   The publish pool and its queued jobs.  The rest is history: jobs submitted, enqueued in
   their client, or withdrawn by a cancelled caller, and pools whose drain was cancelled.
   */
  datatype Traffic = Traffic(
    pool: Option<nat>, nextPool: nat, jobs: multiset<Job>,
    submitted: multiset<Job>, enqueued: multiset<Job>, withdrawn: multiset<Job>, abandoned: set<nat>)

  datatype Bus = Bus(control: Control, clients: Clients, pulls: Pulls, traffic: Traffic)

  const FRESH := Bus(
                   Control(false, false, false, 0, 0, NoStop),
                   Clients(None, None, map[], NoStart, multiset{}, {}, {}, multiset{}, multiset{}, 0, multiset{}),
                   Pulls([], false, [], {}, {}),
                   Traffic(None, 0, multiset{}, multiset{}, multiset{}, multiset{}, {}))

  datatype Step =
    | Subscribe(topic: string)
    | Publish(message: nat)
    | PublishResumes(client: nat)
    | PublishCancelled(client: nat)
    | ConstructionDone(client: nat)
    | ConstructionFails(client: nat)
    | CloserRuns(client: nat)
    | CloseRuns(client: nat)
    | JobRuns(job: Job)
    | JobCancelled(job: Job)
    | StartEnters
    | StartResumes
    | StartCancelled(lost: multiset<nat>)
    | StartEnds
    | LoopBegins(i: nat)
    | LoopErrors(i: nat)
    | LoopRetries(i: nat)
    | LoopFails(i: nat)
    | LoopCancelled(i: nat)
    | LoopExits(i: nat)
    | StopBegins
    | StopAdvances
    | StopCancelled(lost: multiset<nat>)

  // ---- Clients ----

  /** A construction is handed to the executor on behalf of a suspended `publish()`. */
  function Await(k: Clients, w: Waiter): Clients {
    k.(waiters := k.waiters[k.next := w], constructing := k.constructing + {k.next}, next := k.next + 1)
  }

  function AwaitForStart(k: Clients, generation: nat): Clients {
    k.(start := Building(k.next, generation), constructing := k.constructing + {k.next}, next := k.next + 1)
  }

  /** A suspended `publish()` leaves its client to a background closer. */
  function Discard(k: Clients, c: nat): Clients {
    k.(waiters := k.waiters - {c}, closers := k.closers + multiset{c})
  }

  function Install(k: Clients, c: nat): Clients {
    k.(waiters := k.waiters - {c}, publisher := Some(c))
  }

  function Constructed(k: Clients, c: nat): Clients {
    if c !in k.constructing then k else k.(constructing := k.constructing - {c}, built := k.built + {c})
  }

  /** The constructor raised: whoever awaited the client is left without one. */
  function Unconstructed(k: Clients, c: nat): Clients {
    if c !in k.constructing then k
    else
      k.(constructing := k.constructing - {c}, waiters := k.waiters - {c}, closers := k.closers[c := 0],
      start := if k.start.Building? && k.start.client == c then NoStart else k.start)
  }

  /** A background closer gets hold of its client and queues the close call. */
  function QueueClose(k: Clients, c: nat): Clients {
    if c !in k.closers || c !in k.built then k
    else k.(closers := k.closers - multiset{c}, closing := k.closing + multiset{c})
  }

  function RunClose(k: Clients, c: nat): Clients {
    if c !in k.closing then k else k.(closing := k.closing - multiset{c}, closed := k.closed + multiset{c})
  }

  /** Queued close calls are withdrawn because the coroutine awaiting them was cancelled. */
  function Withdraw(k: Clients, lost: multiset<nat>): Clients {
    var fromClosers := lost * k.closers;
    var fromQueue := (lost - fromClosers) * k.closing;
    k.(closers := k.closers - fromClosers, closing := k.closing - fromQueue,
    leaked := k.leaked + fromClosers + fromQueue)
  }

  function WithdrawOne(k: Clients, lost: multiset<nat>, c: nat): Clients {
    var l := lost * k.closing * multiset{c};
    k.(closing := k.closing - l, leaked := k.leaked + l)
  }

  /** `start()` passed its checks. */
  function InstallSubscriber(k: Clients): Clients
    requires k.start.Building?
  {
    k.(subscriber := Some(k.start.client), start := NoStart)
  }

  /** `start()` failed its checks: the client it had just stored is taken out again and closed. */
  function AbortStart(k: Clients): Clients
    requires k.start.Building?
  {
    k.(subscriber := None, closing := k.closing + multiset{k.start.client}, start := Aborting(k.start.client))
  }

  function CancelStart(k: Clients, lost: multiset<nat>): Clients {
    match k.start
    case NoStart => k
    case Building(c, _) => k.(start := NoStart, closers := k.closers + multiset{c})
    case Aborting(c) => WithdrawOne(k, lost, c).(start := NoStart)
  }

  function ReleaseSubscriber(k: Clients): Clients
    requires k.subscriber.Some?
  {
    k.(subscriber := None, closing := k.closing + multiset{k.subscriber.value})
  }

  /** Take the publisher out of the bus and queue its `stop()`, the only flush there is. */
  function ReleasePublisher(k: Clients): Clients
    requires k.publisher.Some?
  {
    k.(publisher := None, closing := k.closing + multiset{k.publisher.value})
  }

  // ---- Publish jobs ----

  /** The current publish pool, created on first use. */
  function Pool(t: Traffic): nat {
    if t.pool.Some? then t.pool.value else t.nextPool
  }

  function Submit(t: Traffic, client: nat, message: nat): Traffic {
    var job := Job(Pool(t), client, message);
    t.(pool := Some(Pool(t)), nextPool := if t.pool.Some? then t.nextPool else t.nextPool + 1,
    jobs := t.jobs + multiset{job}, submitted := t.submitted + multiset{job})
  }

  function RunJob(t: Traffic, j: Job): Traffic {
    if j !in t.jobs then t else t.(jobs := t.jobs - multiset{j}, enqueued := t.enqueued + multiset{j})
  }

  /** The caller of `publish()` is cancelled while its job is still queued. */
  function CancelJob(t: Traffic, j: Job): Traffic {
    if j !in t.jobs then t else t.(jobs := t.jobs - multiset{j}, withdrawn := t.withdrawn + multiset{j})
  }

  predicate PoolEmpty(t: Traffic, pool: nat) {
    forall j :: j in t.jobs ==> j.pool != pool
  }

  // ---- Pull loops ----

  function FreshLoops(topics: seq<string>): seq<Loop> {
    seq(|topics|, i requires 0 <= i < |topics| => Loop(topics[i], Scheduled))
  }

  function SetPhase(p: Pulls, i: nat, phase: Phase): Pulls
    requires i < |p.loops|
  {
    p.(loops := p.loops[i := Loop(p.loops[i].topic, phase)])
  }

  /** The loop's own checks before its first pull. */
  function LoopBegin(p: Pulls, i: nat, stopped: bool, connected: bool): Pulls {
    if i >= |p.loops| || !p.loops[i].phase.Scheduled? then p
    else SetPhase(p, i, if stopped || !connected || !p.pool then Ended else Polling)
  }

  /** A transient error: back off, or leave when stopping. */
  function LoopError(p: Pulls, i: nat, stopping: bool): Pulls {
    if i >= |p.loops| || !p.loops[i].phase.Polling? then p
    else SetPhase(p, i, if stopping then Ended else BackingOff)
  }

  function LoopRetry(p: Pulls, i: nat, stopping: bool): Pulls {
    if i >= |p.loops| || !p.loops[i].phase.BackingOff? then p
    else SetPhase(p, i, if stopping then Ended else Polling)
  }

  /** A permanent error: record the subscription and halt. */
  function LoopFail(p: Pulls, i: nat): Pulls {
    if i >= |p.loops| || !p.loops[i].phase.Polling? then p
    else SetPhase(p, i, Ended).(failed := p.failed + {p.loops[i].topic})
  }

  /**
   A cancellation reaches the task.  Only inside the `try` is it caught and recorded; in the
   sleep of the error handler, or before the task's first step, it ends the task silently.
   */
  function LoopCancel(p: Pulls, i: nat, stopping: bool): Pulls {
    if i >= |p.loops| || p.loops[i].phase.Ended? then p
    else if stopping then SetPhase(p, i, Ended)
    else if p.loops[i].phase.Polling? then SetPhase(p, i, Ended).(failed := p.failed + {p.loops[i].topic})
    else SetPhase(p, i, Ended).(unmarked := p.unmarked + {p.loops[i].topic})
  }

  /** The `while not self._stopping` test. */
  function LoopExit(p: Pulls, i: nat, stopping: bool): Pulls {
    if i >= |p.loops| || !p.loops[i].phase.Polling? || !stopping then p else SetPhase(p, i, Ended)
  }

  predicate AllEnded(loops: seq<Loop>) {
    forall i :: 0 <= i < |loops| ==> loops[i].phase.Ended?
  }

  // ---- publish() ----

  /** `_get_publish_executor` and the submission that follows it without an await. */
  function Send(b: Bus, client: nat, message: nat): Bus {
    if b.control.stopped then b else b.(traffic := Submit(b.traffic, client, message))
  }

  /** `publish()` up to its first await. */
  function PublishStep(b: Bus, message: nat): Bus {
    if b.control.stopped || b.control.stopping then b
    else if b.clients.publisher.Some? then Send(b, b.clients.publisher.value, message)
    else b.(clients := Await(b.clients, Waiter(b.control.generation, message)))
  }

  /** `_ensure_publisher` after its shielded await, and the rest of `publish()`. */
  function PublishResumesStep(b: Bus, c: nat): Bus {
    if c !in b.clients.waiters || c !in b.clients.built then b
    else
      var w := b.clients.waiters[c];
      if b.control.stopped || b.control.stopping || b.control.generation != w.generation
      then b.(clients := Discard(b.clients, c))
      else if b.clients.publisher.None? then Send(b.(clients := Install(b.clients, c)), c, w.message)
        else Send(b.(clients := Discard(b.clients, c)), b.clients.publisher.value, w.message)
  }

  function PublishCancelledStep(b: Bus, c: nat): Bus {
    if c !in b.clients.waiters then b else b.(clients := Discard(b.clients, c))
  }

  // ---- start() ----

  function SubscribeStep(b: Bus, topic: string): Bus {
    if b.control.started || topic in b.pulls.handlers then b
    else b.(pulls := b.pulls.(handlers := b.pulls.handlers + [topic]))
  }

  function StartEntersStep(b: Bus): Bus {
    if b.control.started || !b.clients.start.NoStart? then b
    else if b.pulls.handlers == [] then b.(control := b.control.(started := true, startedAt := b.control.generation))
    else b.(clients := AwaitForStart(b.clients, b.control.generation))
  }

  /** The end of a `start()` whose checks passed. */
  function Started(b: Bus): Bus
    requires b.clients.start.Building?
  {
    Bus(b.control.(started := true, startedAt := b.clients.start.generation),
        InstallSubscriber(b.clients),
        b.pulls.(pool := true, loops := FreshLoops(b.pulls.handlers), unmarked := {}),
        b.traffic)
  }

  /** `start()` after its shielded await: flags and generation are checked before any task exists. */
  function StartResumesStep(b: Bus): Bus {
    if !b.clients.start.Building? || b.clients.start.client !in b.clients.built then b
    else if b.control.stopping || b.control.stopped || b.control.generation != b.clients.start.generation
    then b.(clients := AbortStart(b.clients))
    else Started(b)
  }

  function StartEndsStep(b: Bus): Bus {
    if b.clients.start.Aborting? && b.clients.start.client !in b.clients.closing
    then b.(clients := b.clients.(start := NoStart)) else b
  }

  // ---- stop() ----

  function StopBeginsStep(b: Bus): Bus {
    if !b.control.stop.NoStop? then b
    else
      var control := b.control.(stopped := true, stopping := true, generation := b.control.generation + 1);
      if b.clients.subscriber.Some?
      then b.(control := control.(stop := ClosingSubscriber(b.clients.subscriber.value)),
           clients := ReleaseSubscriber(b.clients))
      else b.(control := control.(stop := Gathering))
  }

  function At(b: Bus, stop: StopPoint): Bus {
    b.(control := b.control.(stop := stop))
  }

  function StopPublisher(b: Bus): Bus {
    if b.clients.publisher.None? then At(b, Finishing(true))
    else At(b, StoppingPublisher(b.clients.publisher.value)).(clients := ReleasePublisher(b.clients))
  }

  /** The end of the `finally` block: flags are reset only if every teardown step ran. */
  function Finish(b: Bus, complete: bool): Bus {
    var c := b.control;
    b.(control := c.(stopping := false, stop := NoStop,
    stopped := c.stopped && !complete, started := c.started && !complete),
                                                             pulls := b.pulls.(loops := [], failed := {}))
  }

  /** `stop()` runs from the await it is suspended on, once that is over, to the next. */
  function StopAdvancesStep(b: Bus): Bus {
    match b.control.stop
    case NoStop => b
    case ClosingSubscriber(c) => if c in b.clients.closing then b else At(b, Gathering)
    case Gathering =>
      if AllEnded(b.pulls.loops) then At(b, DrainingPulls).(pulls := b.pulls.(pool := false)) else b
    case DrainingPulls =>
      if b.traffic.pool.Some?
      then At(b, DrainingPublishes(b.traffic.pool.value)).(traffic := b.traffic.(pool := None))
      else StopPublisher(b)
    case DrainingPublishes(e) => if PoolEmpty(b.traffic, e) then StopPublisher(b) else b
    case StoppingPublisher(c) => if c in b.clients.closing then b else At(b, Finishing(true))
    case Finishing(complete) => if AllEnded(b.pulls.loops) then Finish(b, complete) else b
  }

  /** Close calls withdrawn with a `stop()` that is cancelled while awaiting them. */
  function CancelledClients(stop: StopPoint, k: Clients, lost: multiset<nat>): Clients {
    match stop
    case ClosingSubscriber(c) => WithdrawOne(k, lost, c)
    case StoppingPublisher(c) => WithdrawOne(k, lost, c)
    case Finishing(_) => Withdraw(k, lost)
    case _ => k
  }

  /** A pool whose drain is cancelled is never drained again. */
  function CancelledTraffic(stop: StopPoint, t: Traffic): Traffic {
    if stop.DrainingPublishes? then t.(abandoned := t.abandoned + {stop.pool}) else t
  }

  /**
   `stop()` is cancelled at the await it is suspended on.  The `finally` block still runs,
   unless it is the `finally` block that is cancelled.  `lost` are close calls, awaited
   there, that were still queued and are withdrawn with it.
   */
  function StopCancelledStep(b: Bus, lost: multiset<nat>): Bus {
    var stop := b.control.stop;
    if stop.NoStop? then b
    else
      Bus(b.control.(stop := if stop.Finishing? then NoStop else Finishing(false)),
          CancelledClients(stop, b.clients, lost), b.pulls, CancelledTraffic(stop, b.traffic))
  }

  /** The health property. */
  predicate IsHealthy(b: Bus) {
    !b.control.stopped && (b.pulls.handlers != [] ==> b.control.started) && b.pulls.failed == {}
  }

  // ---- Runs ----

  function Apply(b: Bus, step: Step): Bus {
    match step
    case Subscribe(t) => SubscribeStep(b, t)
    case Publish(m) => PublishStep(b, m)
    case PublishResumes(c) => PublishResumesStep(b, c)
    case PublishCancelled(c) => PublishCancelledStep(b, c)
    case ConstructionDone(c) => b.(clients := Constructed(b.clients, c))
    case ConstructionFails(c) => b.(clients := Unconstructed(b.clients, c))
    case CloserRuns(c) => b.(clients := QueueClose(b.clients, c))
    case CloseRuns(c) => b.(clients := RunClose(b.clients, c))
    case JobRuns(j) => b.(traffic := RunJob(b.traffic, j))
    case JobCancelled(j) => b.(traffic := CancelJob(b.traffic, j))
    case StartEnters => StartEntersStep(b)
    case StartResumes => StartResumesStep(b)
    case StartCancelled(lost) => b.(clients := CancelStart(b.clients, lost))
    case StartEnds => StartEndsStep(b)
    case LoopBegins(i) => b.(pulls := LoopBegin(b.pulls, i, b.control.stopped, b.clients.subscriber.Some?))
    case LoopErrors(i) => b.(pulls := LoopError(b.pulls, i, b.control.stopping))
    case LoopRetries(i) => b.(pulls := LoopRetry(b.pulls, i, b.control.stopping))
    case LoopFails(i) => b.(pulls := LoopFail(b.pulls, i))
    case LoopCancelled(i) => b.(pulls := LoopCancel(b.pulls, i, b.control.stopping))
    case LoopExits(i) => b.(pulls := LoopExit(b.pulls, i, b.control.stopping))
    case StopBegins => StopBeginsStep(b)
    case StopAdvances => StopAdvancesStep(b)
    case StopCancelled(lost) => StopCancelledStep(b, lost)
  }

  function Run(b: Bus, steps: seq<Step>): Bus {
    if steps == [] then b else Apply(Run(b, steps[..|steps| - 1]), steps[|steps| - 1])
  }
}
