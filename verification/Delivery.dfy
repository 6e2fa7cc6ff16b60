/**
 Delivery through one subscription: the pull loop, the handlers behind it, and a broker that
 redelivers until it has applied an acknowledgement.  Acknowledgement calls may fail, or fail
 after the broker applied them; batches may repeat messages; a cancelled handler halts the loop.
 Handlers of one dispatch run concurrently; their calls are recorded handler by handler.
 */
module Delivery {
  import opened Common
  import opened Handlers

  /** `payload` is `None` when the body does not decode to an event. */
  datatype Message = Message(sourceEnv: Option<string>, payload: Option<Payload>)

  // ---- The environment guard ----

  function TrimLeft(s: string): string {
    if s != "" && IsSpace(s[0]) then TrimLeft(s[1..]) else s
  }

  function TrimRight(s: string): string {
    if s != "" && IsSpace(s[|s| - 1]) then TrimRight(s[..|s| - 1]) else s
  }

  function Trim(s: string): string {
    TrimRight(TrimLeft(s))
  }

  /** The environment a bus is constructed with: trimmed, and unset when blank. */
  function Normalize(env: Option<string>): Option<string> {
    if env.Some? && Trim(env.value) != "" then Some(Trim(env.value)) else None
  }

  /** The attribute a bus of this environment stamps on what it publishes. */
  function Stamp(env: Option<string>): Option<string> {
    env
  }

  predicate Foreign(env: Option<string>, m: Message) {
    env.Some? && m.sourceEnv.Some? && m.sourceEnv.value != "" && m.sourceEnv.value != env.value
  }

  lemma {:induction false} TrimLeftPadding(pad: string, s: string)
    requires forall i :: 0 <= i < |pad| ==> IsSpace(pad[i])
    ensures TrimLeft(pad + s) == TrimLeft(s)
  {
    if pad == "" {
      assert pad + s == s;
    } else {
      assert (pad + s)[1..] == pad[1..] + s;
      TrimLeftPadding(pad[1..], s);
    }
  }

  lemma {:induction false} TrimRightPadding(s: string, pad: string)
    requires forall i :: 0 <= i < |pad| ==> IsSpace(pad[i])
    ensures TrimRight(s + pad) == TrimRight(s)
  {
    if pad == "" {
      assert s + pad == s;
    } else {
      assert (s + pad)[..|s + pad| - 1] == s + pad[..|pad| - 1];
      TrimRightPadding(s, pad[..|pad| - 1]);
    }
  }

  lemma {:induction false} TrimLeftStops(s: string, pad: string)
    requires TrimLeft(s) != ""
    ensures TrimLeft(s + pad) == TrimLeft(s) + pad
  {
    if IsSpace(s[0]) {
      assert (s + pad)[1..] == s[1..] + pad;
      TrimLeftStops(s[1..], pad);
    }
  }

  lemma {:induction false} TrimLeftBlank(s: string)
    requires TrimLeft(s) == ""
    ensures forall i :: 0 <= i < |s| ==> IsSpace(s[i])
  {
    if s == "" {
    } else {
      TrimLeftBlank(s[1..]);
    }
  }

  /** Two buses configured with the same environment, up to blanks around it, never drop each other's messages. */
  lemma {:induction false} OwnMessagesAreNotForeign(env: string, left: string, right: string, payload: Option<Payload>)
    requires forall i :: 0 <= i < |left| ==> IsSpace(left[i])
    requires forall i :: 0 <= i < |right| ==> IsSpace(right[i])
    ensures Normalize(Some(left + env + right)) == Normalize(Some(env))
    ensures !Foreign(Normalize(Some(env)), Message(Stamp(Normalize(Some(left + env + right))), payload))
  {
    assert left + env + right == left + (env + right);
    TrimLeftPadding(left, env + right);
    if TrimLeft(env) == "" {
      TrimLeftBlank(env);
      TrimLeftPadding(env, right);
      TrimLeftPadding(right, "");
      assert right + "" == right;
    } else {
      TrimLeftStops(env, right);
      TrimRightPadding(TrimLeft(env), right);
    }
  }

  /** A name without blanks around it is what trimming makes of it with any blanks around it. */
  lemma {:induction false} TrimPadded(left: string, core: string, right: string)
    requires forall i :: 0 <= i < |left| ==> IsSpace(left[i])
    requires forall i :: 0 <= i < |right| ==> IsSpace(right[i])
    requires core != "" && !IsSpace(core[0]) && !IsSpace(core[|core| - 1])
    ensures Trim(left + core + right) == core
  {
    assert left + core + right == left + (core + right);
    TrimLeftPadding(left, core + right);
    TrimRightPadding(core, right);
  }

  /** A bus tells its own messages from others' exactly by the name, whatever blanks its configuration has around it. */
  lemma {:induction false} ForeignIff(left: string, core: string, right: string, m: Message)
    requires forall i :: 0 <= i < |left| ==> IsSpace(left[i])
    requires forall i :: 0 <= i < |right| ==> IsSpace(right[i])
    requires core != "" && !IsSpace(core[0]) && !IsSpace(core[|core| - 1])
    ensures Foreign(Normalize(Some(left + core + right)), m) <==> m.sourceEnv.Some? && m.sourceEnv.value !in {"", core}
    ensures Stamp(Normalize(Some(left + core + right))) == Some(core)
  {
    TrimPadded(left, core, right);
  }

  /** A bus without a name, or with a blank one, treats nothing as foreign and stamps nothing. */
  lemma {:induction false} NoNameNoGuard(blank: string, m: Message)
    requires forall i :: 0 <= i < |blank| ==> IsSpace(blank[i])
    ensures !Foreign(Normalize(None), m) && !Foreign(Normalize(Some(blank)), m)
    ensures Stamp(Normalize(None)) == None == Stamp(Normalize(Some(blank)))
  {
    TrimLeftPadding(blank, "");
    assert blank + "" == blank;
  }

  // ---- One dispatch ----

  datatype Verdict = Ack | Nack | Halt

  /** Cancelled anywhere: halt.  Otherwise acknowledge exactly if every handler returned. */
  function VerdictOf(outcomes: seq<Outcome>): Verdict {
    if exists i :: 0 <= i < |outcomes| && outcomes[i].Cancelled? then Halt
    else if forall i :: 0 <= i < |outcomes| ==> outcomes[i].Returned? then Ack
    else Nack
  }

  /** The scan over the gathered results. */
  method DispatchAll(outcomes: seq<Outcome>) returns (v: Verdict)
    ensures v == VerdictOf(outcomes)
    ensures v == Halt <==> exists i :: 0 <= i < |outcomes| && outcomes[i].Cancelled?
    ensures v == Ack <==> forall i :: 0 <= i < |outcomes| ==> outcomes[i].Returned?
  {
    var cancelled, allOk := false, true;
    for i := 0 to |outcomes|
      invariant cancelled <==> exists k :: 0 <= k < i && outcomes[k].Cancelled?
      invariant allOk <==> forall k :: 0 <= k < i ==> !outcomes[k].Raised?
    {
      if outcomes[i].Cancelled? {
        cancelled := true;
      } else if outcomes[i].Raised? {
        allOk := false;
      }
    }
    if cancelled { return Halt; }
    v := if allOk then Ack else Nack;
  }

  function RunAll(handlers: seq<Handler>, payload: Payload, ws: seq<Weather>): seq<HandlerRun>
    requires |ws| == |handlers|
  {
    seq(|handlers|, i requires 0 <= i < |handlers| => RunHandler(handlers[i], payload, ws[i]))
  }

  function Outcomes(runs: seq<HandlerRun>): seq<Outcome> {
    seq(|runs|, i requires 0 <= i < |runs| => runs[i].outcome)
  }

  /**
   Composed with the bus: a failed lifecycle operation is never acknowledged, whatever the other
   handlers and the failure row do.
   */
  lemma {:induction false} OpFailureIsNeverAcked(handlers: seq<Handler>, payload: Payload, ws: seq<Weather>, i: nat)
    requires |ws| == |handlers| && i < |handlers| && handlers[i].Lifecycle? && payload.LifecycleRequest?
    requires ws[i].op.OpThrew? && !(handlers[i].dedup && ws[i].gate == Says(true))
    ensures !VerdictOf(Outcomes(RunAll(handlers, payload, ws))).Ack?
  {
    var w, dedup := ws[i], handlers[i].dedup;
    assert Outcomes(RunAll(handlers, payload, ws))[i] == RunLifecycle(payload, dedup, w).outcome;
    if !(dedup && w.gate.GateInterrupted?) && !w.mark.Interrupted? && !w.failure.Interrupted? {
      OpFailureSurfaces(payload, dedup, w);
    }
  }

  // ---- One batch ----

  /** A received message: its ack id, the message, and the fates of the handlers run on it. */
  datatype Received = Received(ackId: nat, id: nat, message: Message, weather: seq<Weather>)

  datatype Dispatch = Dispatch(id: nat, runs: seq<HandlerRun>)

  datatype Batch = Batch(acks: seq<nat>, nacks: seq<nat>, dispatched: seq<Dispatch>, halted: bool)

  predicate Dropped(env: Option<string>, m: Message) {
    Foreign(env, m) || m.payload.None?
  }

  predicate Covers(handlers: seq<Handler>, batch: seq<Received>) {
    forall i :: 0 <= i < |batch| ==> |batch[i].weather| == |handlers|
  }

  /** One more message of a batch. */
  function Take(env: Option<string>, handlers: seq<Handler>, b: Batch, r: Received): Batch
    requires |r.weather| == |handlers|
  {
    if b.halted then b
    else if Dropped(env, r.message) then b.(acks := b.acks + [r.ackId])
    else
      var runs := RunAll(handlers, r.message.payload.value, r.weather);
      var b1 := b.(dispatched := b.dispatched + [Dispatch(r.id, runs)]);
      match VerdictOf(Outcomes(runs))
      case Ack => b1.(acks := b.acks + [r.ackId])
      case Nack => b1.(nacks := b.nacks + [r.ackId])
      case Halt => b1.(halted := true)
  }

  /** The whole batch, in order. */
  function Process(env: Option<string>, handlers: seq<Handler>, batch: seq<Received>): Batch
    requires Covers(handlers, batch)
  {
    if batch == [] then Batch([], [], [], false)
    else Take(env, handlers, Process(env, handlers, batch[..|batch| - 1]), batch[|batch| - 1])
  }

  function AckIds(batch: seq<Received>): seq<nat> {
    seq(|batch|, i requires 0 <= i < |batch| => batch[i].ackId)
  }

  /** The pull loop's pass over a batch, filling the two lists. */
  method ProcessBatch(env: Option<string>, handlers: seq<Handler>, batch: seq<Received>)
    returns (acks: seq<nat>, nacks: seq<nat>, halted: bool)
    requires Covers(handlers, batch)
    ensures var p := Process(env, handlers, batch); acks == p.acks && nacks == p.nacks && halted == p.halted
    ensures !halted ==> multiset(acks) + multiset(nacks) == multiset(AckIds(batch))
  {
    acks, nacks, halted := [], [], false;
    var i := 0;
    while i < |batch|
      invariant 0 <= i <= |batch|
      invariant var p := Process(env, handlers, batch[..i]); acks == p.acks && nacks == p.nacks && !p.halted
      invariant !halted
    {
      var r := batch[i];
      assert batch[..i + 1] == batch[..i] + [r];
      if Dropped(env, r.message) {
        acks := acks + [r.ackId];
      } else {
        var v := DispatchAll(Outcomes(RunAll(handlers, r.message.payload.value, r.weather)));
        if v.Halt? {
          HaltStays(env, handlers, batch, i + 1);
          return acks, nacks, true;
        }
        if v.Ack? { acks := acks + [r.ackId]; } else { nacks := nacks + [r.ackId]; }
      }
      i := i + 1;
    }
    assert batch[..|batch|] == batch;
    Partition(env, handlers, batch);
  }

  lemma {:induction false} HaltStays(env: Option<string>, handlers: seq<Handler>, batch: seq<Received>, i: nat)
    requires Covers(handlers, batch) && i <= |batch| && Process(env, handlers, batch[..i]).halted
    ensures Process(env, handlers, batch) == Process(env, handlers, batch[..i])
    decreases |batch|
  {
    if i == |batch| {
      assert batch[..i] == batch;
    } else {
      assert batch[..|batch| - 1][..i] == batch[..i];
      HaltStays(env, handlers, batch[..|batch| - 1], i);
    }
  }

  lemma {:induction false} TakePartition(env: Option<string>, handlers: seq<Handler>, b: Batch, r: Received)
    requires |r.weather| == |handlers| && !Take(env, handlers, b, r).halted
    ensures var b' := Take(env, handlers, b, r);
            && !b.halted
            && multiset(b'.acks) + multiset(b'.nacks) == multiset(b.acks) + multiset(b.nacks) + multiset{r.ackId}
  {
  }

  /** Acks and nacks of a fully processed batch partition it. */
  lemma {:induction false} Partition(env: Option<string>, handlers: seq<Handler>, batch: seq<Received>)
    requires Covers(handlers, batch) && !Process(env, handlers, batch).halted
    ensures var p := Process(env, handlers, batch);
            multiset(p.acks) + multiset(p.nacks) == multiset(AckIds(batch))
  {
    if batch == [] {
    } else {
      var init, last := batch[..|batch| - 1], batch[|batch| - 1];
      TakePartition(env, handlers, Process(env, handlers, init), last);
      Partition(env, handlers, init);
      assert AckIds(batch) == AckIds(init) + [last.ackId];
    }
  }

  // ---- What becomes of each message of a batch ----

  /** The message is dropped by rule, or every handler returns on it. */
  ghost predicate Succeeds(env: Option<string>, handlers: seq<Handler>, r: Received)
    requires |r.weather| == |handlers|
  {
    Dropped(env, r.message) ||
    forall k :: 0 <= k < |handlers| ==>
                  RunHandler(handlers[k], r.message.payload.value, r.weather[k]).outcome.Returned?
  }

  /** The message is dispatched and some handler is cancelled on it. */
  ghost predicate Interrupts(env: Option<string>, handlers: seq<Handler>, r: Received)
    requires |r.weather| == |handlers|
  {
    !Dropped(env, r.message) &&
    exists k :: 0 <= k < |handlers| &&
                RunHandler(handlers[k], r.message.payload.value, r.weather[k]).outcome.Cancelled?
  }

  lemma {:induction false} VerdictIff(handlers: seq<Handler>, payload: Payload, ws: seq<Weather>)
    requires |ws| == |handlers|
    ensures var v := VerdictOf(Outcomes(RunAll(handlers, payload, ws)));
            && (v == Halt <==>
                exists k :: 0 <= k < |handlers| && RunHandler(handlers[k], payload, ws[k]).outcome.Cancelled?)
            && (v == Ack <==>
                forall k :: 0 <= k < |handlers| ==> RunHandler(handlers[k], payload, ws[k]).outcome.Returned?)
  {
    var os := Outcomes(RunAll(handlers, payload, ws));
    forall k | 0 <= k < |handlers| ensures os[k] == RunHandler(handlers[k], payload, ws[k]).outcome {}
    if k :| 0 <= k < |handlers| && RunHandler(handlers[k], payload, ws[k]).outcome.Cancelled? {
      assert os[k].Cancelled?;
    }
  }

  /** One more message: it halts the pass, is acknowledged, or is not, by what its handlers did. */
  lemma {:induction false} TakeIff(env: Option<string>, handlers: seq<Handler>, b: Batch, r: Received)
    requires |r.weather| == |handlers| && !b.halted
    ensures var b' := Take(env, handlers, b, r);
            && (b'.halted <==> Interrupts(env, handlers, r))
            && (!b'.halted ==> b'.acks == if Succeeds(env, handlers, r) then b.acks + [r.ackId] else b.acks)
  {
    if !Dropped(env, r.message) { VerdictIff(handlers, r.message.payload.value, r.weather); }
  }

  /** A batch is abandoned exactly if some handler is cancelled on one of its messages. */
  lemma {:induction false} HaltedIff(env: Option<string>, handlers: seq<Handler>, batch: seq<Received>)
    requires Covers(handlers, batch)
    ensures Process(env, handlers, batch).halted <==>
            exists i :: 0 <= i < |batch| && Interrupts(env, handlers, batch[i])
  {
    if batch == [] {
    } else {
      var init, last := batch[..|batch| - 1], batch[|batch| - 1];
      HaltedIff(env, handlers, init);
      assert forall i :: 0 <= i < |init| ==> init[i] == batch[i];
      assert batch[|init|] == last;
      var b := Process(env, handlers, init);
      if !b.halted { TakeIff(env, handlers, b, last); }
    }
  }

  /** In a batch that is not abandoned a message is acknowledged exactly if it was dropped or every handler returned. */
  lemma {:induction false} AckedIff(env: Option<string>, handlers: seq<Handler>, batch: seq<Received>, i: nat)
    requires Covers(handlers, batch) && !Process(env, handlers, batch).halted && i < |batch|
    requires forall k, l :: 0 <= k < l < |batch| ==> batch[k].ackId != batch[l].ackId
    ensures batch[i].ackId in Process(env, handlers, batch).acks <==> Succeeds(env, handlers, batch[i])
  {
    var init, last := batch[..|batch| - 1], batch[|batch| - 1];
    var b := Process(env, handlers, init);
    TakeIff(env, handlers, b, last);
    if i < |init| {
      AckedIff(env, handlers, init, i);
      assert init[i] == batch[i];
    } else {
      ProcessAcks(env, handlers, init);
      forall k | 0 <= k < |init| ensures AckIds(init)[k] != last.ackId { assert init[k] == batch[k]; }
    }
  }

  // ---- The subscription ----

  /** `posted` are all messages ever put on the subscription, `held` those the broker still has. */
  datatype Subscription = Subscription(
    env: Option<string>, handlers: seq<Handler>,
    posted: map<nat, Message>, held: set<nat>, history: seq<Dispatch>)

  datatype Step =
    | Post(id: nat, message: Message)
    | Cycle(batch: seq<Received>, landed: set<nat>)

  /** Everything in the batch is a held message with its posted content, under distinct ack ids. */
  predicate Deliverable(s: Subscription, batch: seq<Received>) {
    && Covers(s.handlers, batch)
    && (forall i :: 0 <= i < |batch| ==>
                      batch[i].id in s.held && batch[i].id in s.posted && s.posted[batch[i].id] == batch[i].message)
    && (forall i, j :: 0 <= i < j < |batch| ==> batch[i].ackId != batch[j].ackId)
  }

  /** The messages whose acknowledgement was sent and which the broker applied. */
  function Settled(batch: seq<Received>, acks: seq<nat>, landed: set<nat>): set<nat> {
    set i | 0 <= i < |batch| && batch[i].ackId in acks && batch[i].ackId in landed :: batch[i].id
  }

  /** A pull cycle: a halted batch sends no acknowledgement at all. */
  function CycleStep(s: Subscription, batch: seq<Received>, landed: set<nat>): Subscription {
    if !Deliverable(s, batch) then s
    else
      var p := Process(s.env, s.handlers, batch);
      s.(history := s.history + p.dispatched,
      held := if p.halted then s.held else s.held - Settled(batch, p.acks, landed))
  }

  function Apply(s: Subscription, step: Step): Subscription {
    match step
    case Post(id, m) =>
      if id in s.posted then s else s.(posted := s.posted[id := m], held := s.held + {id})
    case Cycle(batch, landed) => CycleStep(s, batch, landed)
  }

  function Run(s: Subscription, steps: seq<Step>): Subscription {
    if steps == [] then s else Apply(Run(s, steps[..|steps| - 1]), steps[|steps| - 1])
  }

  function Opened(env: Option<string>, handlers: seq<Handler>): Subscription {
    Subscription(env, handlers, map[], {}, [])
  }

  /** A recorded dispatch in which every handler returned, with what each owes the event. */
  ghost predicate Completed(handlers: seq<Handler>, payload: Payload, d: Dispatch) {
    && |d.runs| == |handlers|
    && forall i :: 0 <= i < |handlers| ==>
                     d.runs[i].outcome.Returned? && HandlerDone(handlers[i], payload, d.runs[i].effects)
  }

  /** The only reasons for which a message may leave the subscription. */
  ghost predicate Justified(s: Subscription, id: nat)
    requires id in s.posted
  {
    || Dropped(s.env, s.posted[id])
    || exists d :: d in s.history && d.id == id && Completed(s.handlers, s.posted[id].payload.value, d)
  }

  ghost predicate Inv(s: Subscription) {
    && s.held <= s.posted.Keys
    && (forall id :: id in s.posted && id !in s.held ==> Justified(s, id))
    && (forall d :: d in s.history ==> d.id in s.posted && !Dropped(s.env, s.posted[d.id]))
  }

  lemma {:induction false} AckedRunCompleted(handlers: seq<Handler>, payload: Payload, ws: seq<Weather>, id: nat)
    requires |ws| == |handlers| && VerdictOf(Outcomes(RunAll(handlers, payload, ws))).Ack?
    ensures Completed(handlers, payload, Dispatch(id, RunAll(handlers, payload, ws)))
  {
    var runs := RunAll(handlers, payload, ws);
    forall i | 0 <= i < |handlers|
      ensures runs[i].outcome.Returned? && HandlerDone(handlers[i], payload, runs[i].effects)
    {
      assert Outcomes(runs)[i] == runs[i].outcome;
      HandlerReturns(handlers[i], payload, ws[i]);
    }
  }

  /** An acked message was dropped by rule or has a completed dispatch in the batch. */
  ghost predicate AckOk(env: Option<string>, handlers: seq<Handler>, p: Batch, r: Received) {
    r.ackId in p.acks ==>
      || Dropped(env, r.message)
      || exists d :: d in p.dispatched && d.id == r.id && Completed(handlers, r.message.payload.value, d)
  }

  /** A dispatch in the batch is of a message that is neither foreign nor undecodable. */
  ghost predicate DispatchOk(env: Option<string>, batch: seq<Received>, d: Dispatch) {
    exists i :: 0 <= i < |batch| && batch[i].id == d.id && !Dropped(env, batch[i].message)
  }

  lemma {:induction false} TakeAcks(env: Option<string>, handlers: seq<Handler>, p: Batch, r: Received)
    requires |r.weather| == |handlers| && r.ackId !in p.acks
    ensures AckOk(env, handlers, Take(env, handlers, p, r), r)
  {
    if !p.halted && !Dropped(env, r.message) {
      var runs := RunAll(handlers, r.message.payload.value, r.weather);
      assert Dispatch(r.id, runs) in Take(env, handlers, p, r).dispatched;
      if VerdictOf(Outcomes(runs)).Ack? {
        AckedRunCompleted(handlers, r.message.payload.value, r.weather, r.id);
      }
    }
  }

  lemma {:induction false} TakeKeeps(env: Option<string>, handlers: seq<Handler>, p: Batch, r: Received, x: Received)
    requires |r.weather| == |handlers| && x.ackId != r.ackId && AckOk(env, handlers, p, x)
    ensures AckOk(env, handlers, Take(env, handlers, p, r), x)
  {
    assert forall d :: d in p.dispatched ==> d in Take(env, handlers, p, r).dispatched;
  }

  lemma {:induction false} ProcessAcks(env: Option<string>, handlers: seq<Handler>, batch: seq<Received>)
    requires Covers(handlers, batch)
    requires forall i, j :: 0 <= i < j < |batch| ==> batch[i].ackId != batch[j].ackId
    ensures var p := Process(env, handlers, batch);
            && (forall i :: 0 <= i < |batch| ==> AckOk(env, handlers, p, batch[i]))
            && (forall a :: a in p.acks ==> a in AckIds(batch))
  {
    if batch == [] {
    } else {
      var init, r := batch[..|batch| - 1], batch[|batch| - 1];
      ProcessAcks(env, handlers, init);
      var p := Process(env, handlers, init);
      assert AckIds(batch) == AckIds(init) + [r.ackId];
      assert r.ackId !in AckIds(init);
      TakeAcks(env, handlers, p, r);
      forall i | 0 <= i < |init| ensures AckOk(env, handlers, Take(env, handlers, p, r), batch[i]) {
        assert init[i] == batch[i];
        TakeKeeps(env, handlers, p, r, batch[i]);
      }
    }
  }

  lemma {:induction false} ProcessDispatches(env: Option<string>, handlers: seq<Handler>, batch: seq<Received>,
                                             d: Dispatch)
    requires Covers(handlers, batch) && d in Process(env, handlers, batch).dispatched
    ensures DispatchOk(env, batch, d)
  {
    var init, r := batch[..|batch| - 1], batch[|batch| - 1];
    if d in Process(env, handlers, init).dispatched {
      ProcessDispatches(env, handlers, init, d);
      var i :| 0 <= i < |init| && init[i].id == d.id && !Dropped(env, init[i].message);
      assert batch[i] == init[i];
    } else {
      assert batch[|init|] == r;
    }
  }

  lemma {:induction false} CycleKeeps(s: Subscription, batch: seq<Received>, landed: set<nat>)
    requires Inv(s) && Deliverable(s, batch)
    ensures Inv(CycleStep(s, batch, landed))
  {
    ProcessAcks(s.env, s.handlers, batch);
    var p, s' := Process(s.env, s.handlers, batch), CycleStep(s, batch, landed);
    forall id | id in s'.posted && id !in s'.held ensures Justified(s', id) {
      if id !in s.held {
        assert Justified(s, id);
      } else {
        var i :| 0 <= i < |batch| && batch[i].ackId in p.acks && batch[i].id == id;
        assert AckOk(s.env, s.handlers, p, batch[i]);
      }
    }
    forall d | d in s'.history ensures d.id in s'.posted && !Dropped(s'.env, s'.posted[d.id]) {
      if d in p.dispatched {
        ProcessDispatches(s.env, s.handlers, batch, d);
      }
    }
  }

  lemma {:induction false} StepKeeps(s: Subscription, step: Step)
    requires Inv(s)
    ensures Inv(Apply(s, step)) && Apply(s, step).handlers == s.handlers && Apply(s, step).env == s.env
  {
    match step
    case Post(id, m) =>
      var s' := Apply(s, step);
      forall x | x in s'.posted && x !in s'.held ensures Justified(s', x) { assert Justified(s, x); }
    case Cycle(batch, landed) => if Deliverable(s, batch) { CycleKeeps(s, batch, landed); }
  }

  lemma {:induction false} RunKeeps(env: Option<string>, handlers: seq<Handler>, steps: seq<Step>)
    ensures var s := Run(Opened(env, handlers), steps);
            Inv(s) && s.handlers == handlers && s.env == env
  {
    if steps == [] {
    } else {
      RunKeeps(env, handlers, steps[..|steps| - 1]);
      StepKeeps(Run(Opened(env, handlers), steps[..|steps| - 1]), steps[|steps| - 1]);
    }
  }

  /**
   In every run, a message that has left the subscription was foreign or undecodable, or was
   dispatched to handlers that all returned, each having done what it owes: a lifecycle handler
   found it malformed, found a recent success, or wrote the success row with the operation's
   count; a suppression handler upserted every listed tenant.
   */
  lemma {:induction false} LeavesOnlyWhenDone(env: Option<string>, handlers: seq<Handler>, steps: seq<Step>, id: nat)
    requires var s := Run(Opened(env, handlers), steps); id in s.posted && id !in s.held
    ensures var s := Run(Opened(env, handlers), steps);
            || Foreign(env, s.posted[id]) || s.posted[id].payload.None?
            || exists d :: d in s.history && d.id == id && Completed(handlers, s.posted[id].payload.value, d)
  {
    RunKeeps(env, handlers, steps);
  }

  /** In every run, no handler is ever run on a foreign or undecodable message. */
  lemma {:induction false} DroppedMeansUntouched(env: Option<string>, handlers: seq<Handler>, steps: seq<Step>, id: nat)
    requires var s := Run(Opened(env, handlers), steps); id in s.posted && Dropped(env, s.posted[id])
    ensures forall d :: d in Run(Opened(env, handlers), steps).history ==> d.id != id
  {
    RunKeeps(env, handlers, steps);
  }

  /** The messages of the batch that the broker lets go of: those that succeeded and whose acknowledgement landed. */
  ghost predicate LetGo(s: Subscription, batch: seq<Received>, landed: set<nat>, id: nat)
    requires Covers(s.handlers, batch)
  {
    exists i :: 0 <= i < |batch| && batch[i].id == id && batch[i].ackId in landed &&
                Succeeds(s.env, s.handlers, batch[i])
  }

  /**
   After a pull cycle the broker still holds exactly the messages it held, without those that were
   dropped or on which every handler returned and whose acknowledgement landed; a cycle in which a
   handler is cancelled lets go of nothing.
   */
  lemma {:induction false} CycleHoldsIff(s: Subscription, batch: seq<Received>, landed: set<nat>, id: nat)
    requires Deliverable(s, batch)
    ensures id in CycleStep(s, batch, landed).held <==>
            id in s.held &&
            ((exists i :: 0 <= i < |batch| && Interrupts(s.env, s.handlers, batch[i])) || !LetGo(s, batch, landed, id))
  {
    var p := Process(s.env, s.handlers, batch);
    HaltedIff(s.env, s.handlers, batch);
    if !p.halted {
      forall i | 0 <= i < |batch| ensures batch[i].ackId in p.acks <==> Succeeds(s.env, s.handlers, batch[i]) {
        AckedIff(s.env, s.handlers, batch, i);
      }
      if id in Settled(batch, p.acks, landed) {
        var i :| 0 <= i < |batch| && batch[i].ackId in p.acks && batch[i].ackId in landed && batch[i].id == id;
        assert LetGo(s, batch, landed, id);
      }
      if LetGo(s, batch, landed, id) {
        var i :| 0 <= i < |batch| && batch[i].id == id && batch[i].ackId in landed &&
                 Succeeds(s.env, s.handlers, batch[i]);
        assert batch[i].ackId in p.acks;
      }
    }
  }

  /** A new message is held with its content until it is let go. */
  lemma {:induction false} PostedIsHeld(s: Subscription, id: nat, m: Message)
    requires id !in s.posted
    ensures var s' := Apply(s, Post(id, m)); id in s'.held && id in s'.posted && s'.posted[id] == m
  {
  }

  /** Every message that is not dropped is dispatched, with the runs of all the handlers on it. */
  lemma {:induction false} DispatchedIff(env: Option<string>, handlers: seq<Handler>, batch: seq<Received>, i: nat)
    requires Covers(handlers, batch) && !Process(env, handlers, batch).halted && i < |batch|
    requires !Dropped(env, batch[i].message)
    ensures Dispatch(batch[i].id, RunAll(handlers, batch[i].message.payload.value, batch[i].weather))
            in Process(env, handlers, batch).dispatched
  {
    var init, last := batch[..|batch| - 1], batch[|batch| - 1];
    if i < |init| {
      assert init[i] == batch[i];
      DispatchedIff(env, handlers, init, i);
    }
  }

  /** In every run, a message stamped with another environment's name is never handed to a handler. */
  lemma {:induction false} OtherNamesAreNeverDispatched(
    own: string, handlers: seq<Handler>, steps: seq<Step>, id: nat, other: string, payload: Option<Payload>)
    requires own != "" && !IsSpace(own[0]) && !IsSpace(own[|own| - 1]) && other != "" && other != own
    requires var s := Run(Opened(Normalize(Some(own)), handlers), steps);
             id in s.posted && s.posted[id] == Message(Some(other), payload)
    ensures forall d :: d in Run(Opened(Normalize(Some(own)), handlers), steps).history ==> d.id != id
  {
    ForeignIff("", own, "", Message(Some(other), payload));
    assert "" + own + "" == own;
    DroppedMeansUntouched(Normalize(Some(own)), handlers, steps, id);
  }

  /** End to end for suppression: once its event is gone, every listed tenant was stored with its action. */
  lemma {:induction false} SuppressionReachesEveryTenant(env: Option<string>, steps: seq<Step>, id: nat, tenant: string)
    requires var s := Run(Opened(env, [Suppression]), steps);
             && id in s.posted && id !in s.held && !Dropped(env, s.posted[id])
             && s.posted[id].payload.value.SuppressionChange? && tenant in s.posted[id].payload.value.tenants
    ensures var s := Run(Opened(env, [Suppression]), steps);
            exists d :: d in s.history && d.id == id && |d.runs| == 1
                        && Upsert(tenant, s.posted[id].payload.value.action, true) in d.runs[0].effects
  {
    LeavesOnlyWhenDone(env, [Suppression], steps, id);
    var s := Run(Opened(env, [Suppression]), steps);
    var d :| d in s.history && d.id == id && Completed([Suppression], s.posted[id].payload.value, d);
    assert HandlerDone([Suppression][0], s.posted[id].payload.value, d.runs[0].effects);
  }
}
