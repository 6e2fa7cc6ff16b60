/**
 The event handlers behind the bus.  Every call a handler awaits may return, raise an
 ordinary exception, or be cancelled; a run of a handler is its outcome and the calls it
 made, in order.
 */
module Handlers {

  /** The decoded payload, by the request class it validates as. */
  datatype Payload =
    | Opaque
    | LifecycleRequest(audit: nat, org: string)
    | SuppressionChange(tenants: seq<string>, action: string)

  datatype Outcome = Returned | Raised(error: nat) | Cancelled

  /** How one awaited call ends. */
  datatype Call = Done | Threw(error: nat) | Interrupted
  datatype GateCall = Says(recent: bool) | GateThrew | GateInterrupted
  datatype OpCall = Counted(count: nat) | OpThrew(error: nat) | OpInterrupted

  /** The fate of every call one handler run may make. `upserts` beyond its length are `Done`. */
  datatype Weather = Weather(
    gate: GateCall, skip: Call, mark: Call, op: OpCall, failure: Call, success: Call,
    upserts: seq<Call>, plain: Outcome)

  datatype Status = InProgress | Success(count: nat) | Skipped | Failure(error: nat)

  datatype Effect =
    | Gate(recent: bool)
    | Op(result: OpCall)
    | Audit(row: nat, status: Status, written: bool)
    | Upsert(tenant: string, action: string, stored: bool)

  datatype HandlerRun = HandlerRun(outcome: Outcome, effects: seq<Effect>)

  /** A subscribed handler; `dedup` is set for the pipeline actions. */
  datatype Handler = Lifecycle(dedup: bool) | Suppression | Plain

  // ---- The lifecycle handler ----

  function Then(before: seq<Effect>, r: HandlerRun): HandlerRun {
    HandlerRun(r.outcome, before + r.effects)
  }

  /** From the operation on. */
  function RunOp(audit: nat, w: Weather): HandlerRun {
    match w.op
    case OpInterrupted => HandlerRun(Cancelled, [Op(w.op)])
    case OpThrew(e) =>
      HandlerRun(if w.failure.Interrupted? then Cancelled else Raised(e),
                 [Op(w.op), Audit(audit, Failure(e), w.failure.Done?)])
    case Counted(n) =>
      HandlerRun(match w.success case Done => Returned case Threw(e) => Raised(e) case Interrupted => Cancelled,
                 [Op(w.op), Audit(audit, Success(n), w.success.Done?)])
  }

  /** The best-effort in-progress mark, then the operation. */
  function MarkAndRun(audit: nat, w: Weather): HandlerRun {
    var mark := [Audit(audit, InProgress, w.mark.Done?)];
    if w.mark.Interrupted? then HandlerRun(Cancelled, mark) else Then(mark, RunOp(audit, w))
  }

  function RunLifecycle(payload: Payload, dedup: bool, w: Weather): HandlerRun {
    if !payload.LifecycleRequest? then HandlerRun(Returned, [])
    else if !dedup then MarkAndRun(payload.audit, w)
    else
      match w.gate
      case GateInterrupted => HandlerRun(Cancelled, [])
      case GateThrew => MarkAndRun(payload.audit, w)
      case Says(recent) =>
        if !recent then Then([Gate(false)], MarkAndRun(payload.audit, w))
        else HandlerRun(if w.skip.Interrupted? then Cancelled else Returned,
                        [Gate(true), Audit(payload.audit, Skipped, w.skip.Done?)])
  }

  /** The handler as written: one call after another, with its nested exception paths. */
  method RunAction(payload: Payload, dedup: bool, w: Weather) returns (r: HandlerRun)
    ensures r == RunLifecycle(payload, dedup, w)
  {
    if !payload.LifecycleRequest? { return HandlerRun(Returned, []); }
    var effects: seq<Effect> := [];
    if dedup {
      var alreadyDone := false;
      match w.gate {
        case GateInterrupted => return HandlerRun(Cancelled, []);
        case GateThrew =>
        case Says(recent) =>
          alreadyDone := recent;
          effects := [Gate(recent)];
      }
      if alreadyDone {
        effects := effects + [Audit(payload.audit, Skipped, w.skip.Done?)];
        return HandlerRun(if w.skip.Interrupted? then Cancelled else Returned, effects);
      }
    }
    effects := effects + [Audit(payload.audit, InProgress, w.mark.Done?)];
    if w.mark.Interrupted? { return HandlerRun(Cancelled, effects); }
    effects := effects + [Op(w.op)];
    match w.op
    case OpInterrupted => r := HandlerRun(Cancelled, effects);
    case OpThrew(e) =>
      effects := effects + [Audit(payload.audit, Failure(e), w.failure.Done?)];
      r := HandlerRun(if w.failure.Interrupted? then Cancelled else Raised(e), effects);
    case Counted(n) =>
      effects := effects + [Audit(payload.audit, Success(n), w.success.Done?)];
      r := HandlerRun(
        match w.success case Done => Returned case Threw(e) => Raised(e) case Interrupted => Cancelled, effects);
  }

  /** What it means for a lifecycle request to be done with. */
  ghost predicate LifecycleDone(payload: Payload, effects: seq<Effect>) {
    || !payload.LifecycleRequest?
    || Gate(true) in effects
    || exists n :: |effects| >= 2
                   && effects[|effects| - 2] == Op(Counted(n))
                   && effects[|effects| - 1] == Audit(payload.audit, Success(n), true)
  }

  /** The handler returns only when the request is malformed, a recent success exists, or the
      operation returned and the success row carrying its count was written. */
  lemma {:induction false} LifecycleReturns(payload: Payload, dedup: bool, w: Weather)
    ensures var r := RunLifecycle(payload, dedup, w);
            r.outcome.Returned? ==> LifecycleDone(payload, r.effects)
  {
    var r := RunLifecycle(payload, dedup, w);
    if payload.LifecycleRequest? && r.outcome.Returned? {
      if dedup && w.gate == Says(true) {
        assert r.effects[0] == Gate(true);
      } else {
        assert r.effects[|r.effects| - 2] == Op(Counted(w.op.count));
      }
    }
  }

  /** A failed operation surfaces with its own error whether or not the failure row was written. */
  lemma {:induction false} OpFailureSurfaces(payload: Payload, dedup: bool, w: Weather)
    requires payload.LifecycleRequest? && w.op.OpThrew? && !(dedup && w.gate == Says(true))
    requires !(dedup && w.gate.GateInterrupted?) && !w.mark.Interrupted? && !w.failure.Interrupted?
    ensures var r := RunLifecycle(payload, dedup, w);
            && r.outcome == Raised(w.op.error)
            && r.effects[|r.effects| - 1] == Audit(payload.audit, Failure(w.op.error), w.failure.Done?)
  {
  }

  /** The gate lets the request through: there is none, it failed, or it knew of no recent success. */
  predicate Admitted(dedup: bool, gate: GateCall) {
    dedup ==> gate == Says(false) || gate == GateThrew
  }

  /** The operation is reached. */
  predicate Reached(payload: Payload, dedup: bool, w: Weather) {
    payload.LifecycleRequest? && Admitted(dedup, w.gate) && !w.mark.Interrupted?
  }

  /** A recent success ends the request with a skip row, if that can be written, and nothing else. */
  lemma {:induction false} RecentSuccessSkips(payload: Payload, dedup: bool, w: Weather)
    ensures var r := RunLifecycle(payload, dedup, w);
            && (Gate(true) in r.effects <==> payload.LifecycleRequest? && dedup && w.gate == Says(true))
            && (Gate(true) in r.effects ==>
                  && r.effects == [Gate(true), Audit(payload.audit, Skipped, w.skip.Done?)]
                  && r.outcome == if w.skip.Interrupted? then Cancelled else Returned)
  {
    var r := RunLifecycle(payload, dedup, w);
    if payload.LifecycleRequest? && dedup && w.gate == Says(true) {
      assert r.effects[0] == Gate(true);
    }
  }

  /**
   The operation runs exactly if it is reached, once, between the in-progress row and the row that
   records its end.
   */
  lemma {:induction false} OpRunsIff(payload: Payload, dedup: bool, w: Weather)
    ensures var effects := RunLifecycle(payload, dedup, w).effects;
            && ((exists o :: Op(o) in effects) <==> Reached(payload, dedup, w))
            && (Reached(payload, dedup, w) ==>
                  effects ==
                  (if dedup && w.gate.Says? then [Gate(false)] else []) +
                  [Audit(payload.audit, InProgress, w.mark.Done?), Op(w.op)] +
                  (match w.op
                   case OpInterrupted => []
                   case OpThrew(e) => [Audit(payload.audit, Failure(e), w.failure.Done?)]
                   case Counted(n) => [Audit(payload.audit, Success(n), w.success.Done?)]))
  {
    var effects := RunLifecycle(payload, dedup, w).effects;
    if Reached(payload, dedup, w) {
      assert Op(w.op) in effects;
    }
  }

  /** The handler returns exactly if the request is malformed, was skipped, or ran with its success row written. */
  lemma {:induction false} LifecycleReturnsIff(payload: Payload, dedup: bool, w: Weather)
    ensures RunLifecycle(payload, dedup, w).outcome.Returned? <==>
            || !payload.LifecycleRequest?
            || (dedup && w.gate == Says(true) && !w.skip.Interrupted?)
            || (Reached(payload, dedup, w) && w.op.Counted? && w.success.Done?)
    ensures forall e :: RunLifecycle(payload, dedup, w).outcome == Raised(e) <==>
                        Reached(payload, dedup, w) &&
                        ((w.op == OpThrew(e) && !w.failure.Interrupted?) || (w.op.Counted? && w.success == Threw(e)))
  {
  }

  // ---- The suppression handler ----

  function UpsertFate(w: Weather, i: nat): Call {
    if i < |w.upserts| then w.upserts[i] else Done
  }

  /** The upserts from tenant `i` on: each tenant in turn, stopping at the first that fails. */
  function UpsertFrom(tenants: seq<string>, action: string, w: Weather, i: nat): HandlerRun
    requires i <= |tenants|
    decreases |tenants| - i
  {
    if i == |tenants| then HandlerRun(Returned, [])
    else
      match UpsertFate(w, i)
      case Threw(e) => HandlerRun(Raised(e), [Upsert(tenants[i], action, false)])
      case Interrupted => HandlerRun(Cancelled, [Upsert(tenants[i], action, false)])
      case Done => Then([Upsert(tenants[i], action, true)], UpsertFrom(tenants, action, w, i + 1))
  }

  function RunSuppression(payload: Payload, w: Weather): HandlerRun {
    if !payload.SuppressionChange? then HandlerRun(Returned, [])
    else UpsertFrom(payload.tenants, payload.action, w, 0)
  }

  method HandleSuppressionChanged(payload: Payload, w: Weather) returns (r: HandlerRun)
    ensures r == RunSuppression(payload, w)
  {
    if !payload.SuppressionChange? { return HandlerRun(Returned, []); }
    var tenants, action := payload.tenants, payload.action;
    var effects: seq<Effect> := [];
    for i := 0 to |tenants|
      invariant RunSuppression(payload, w) == Then(effects, UpsertFrom(tenants, action, w, i))
    {
      match UpsertFate(w, i)
      case Threw(e) => return HandlerRun(Raised(e), effects + [Upsert(tenants[i], action, false)]);
      case Interrupted => return HandlerRun(Cancelled, effects + [Upsert(tenants[i], action, false)]);
      case Done =>
        ghost var rest := UpsertFrom(tenants, action, w, i + 1);
        assert effects + ([Upsert(tenants[i], action, true)] + rest.effects) ==
               effects + [Upsert(tenants[i], action, true)] + rest.effects;
        effects := effects + [Upsert(tenants[i], action, true)];
    }
    r := HandlerRun(Returned, effects);
  }

  ghost predicate SuppressionDone(payload: Payload, effects: seq<Effect>) {
    payload.SuppressionChange? ==>
      forall t :: t in payload.tenants ==> Upsert(t, payload.action, true) in effects
  }

  lemma {:induction false} UpsertsAll(tenants: seq<string>, action: string, w: Weather, i: nat)
    requires i <= |tenants| && UpsertFrom(tenants, action, w, i).outcome.Returned?
    ensures forall k :: i <= k < |tenants| ==>
                          Upsert(tenants[k], action, true) in UpsertFrom(tenants, action, w, i).effects
    decreases |tenants| - i
  {
    if i < |tenants| {
      UpsertsAll(tenants, action, w, i + 1);
      var r, rest := UpsertFrom(tenants, action, w, i), UpsertFrom(tenants, action, w, i + 1);
      assert r.effects == [Upsert(tenants[i], action, true)] + rest.effects;
    }
  }

  /** The handler returns only when every listed tenant has been upserted. */
  lemma {:induction false} SuppressionReturns(payload: Payload, w: Weather)
    ensures RunSuppression(payload, w).outcome.Returned? ==>
              SuppressionDone(payload, RunSuppression(payload, w).effects)
  {
    if payload.SuppressionChange? && RunSuppression(payload, w).outcome.Returned? {
      UpsertsAll(payload.tenants, payload.action, w, 0);
    }
  }

  /** The first tenant, from `i` on, whose upsert did not go through. */
  function FirstFailure(w: Weather, n: nat, i: nat): nat
    requires i <= n
    decreases n - i
  {
    if i == n || !UpsertFate(w, i).Done? then i else FirstFailure(w, n, i + 1)
  }

  lemma {:induction false} FirstFailureSpec(w: Weather, n: nat, i: nat)
    requires i <= n
    ensures i <= FirstFailure(w, n, i) <= n
    ensures forall k :: i <= k < FirstFailure(w, n, i) ==> UpsertFate(w, k).Done?
    ensures FirstFailure(w, n, i) < n ==> !UpsertFate(w, FirstFailure(w, n, i)).Done?
    decreases n - i
  {
    if i == n || !UpsertFate(w, i).Done? {
    } else {
      FirstFailureSpec(w, n, i + 1);
    }
  }

  lemma {:induction false} UpsertsInOrder(tenants: seq<string>, action: string, w: Weather, i: nat)
    requires i <= |tenants|
    ensures var r, f := UpsertFrom(tenants, action, w, i), FirstFailure(w, |tenants|, i);
            && i <= f <= |tenants|
            && |r.effects| == (if f == |tenants| then f else f + 1) - i
            && (forall k :: 0 <= k < |r.effects| ==> r.effects[k] == Upsert(tenants[i + k], action, i + k < f))
            && (if f == |tenants| then r.outcome == Returned
                else match UpsertFate(w, f)
                     case Threw(e) => r.outcome == Raised(e)
                     case _ => r.outcome == Cancelled)
    decreases |tenants| - i
  {
    if i == |tenants| || !UpsertFate(w, i).Done? {
    } else {
      UpsertsInOrder(tenants, action, w, i + 1);
      var rest := UpsertFrom(tenants, action, w, i + 1);
      assert UpsertFrom(tenants, action, w, i).effects == [Upsert(tenants[i], action, true)] + rest.effects;
    }
  }

  /**
   The tenants are upserted in order up to the first upsert that does not go through, whose error
   surfaces; the handler returns exactly if the event is malformed or every upsert went through.
   */
  lemma {:induction false} SuppressionStopsAtFirstFailure(payload: Payload, w: Weather)
    ensures RunSuppression(payload, w).outcome.Returned? <==>
            payload.SuppressionChange? ==> forall k :: 0 <= k < |payload.tenants| ==> UpsertFate(w, k).Done?
    ensures payload.SuppressionChange? ==>
              var effects := RunSuppression(payload, w).effects;
              && |effects| <= |payload.tenants|
              && forall k :: 0 <= k < |effects| ==>
                               effects[k] == Upsert(payload.tenants[k], payload.action, UpsertFate(w, k).Done?)
  {
    if payload.SuppressionChange? {
      FirstFailureSpec(w, |payload.tenants|, 0);
      UpsertsInOrder(payload.tenants, payload.action, w, 0);
    }
  }

  // ---- Any handler ----

  function RunHandler(h: Handler, payload: Payload, w: Weather): HandlerRun {
    match h
    case Lifecycle(dedup) => RunLifecycle(payload, dedup, w)
    case Suppression => RunSuppression(payload, w)
    case Plain => HandlerRun(w.plain, [])
  }

  /** What an acknowledged delivery owes this handler. */
  ghost predicate HandlerDone(h: Handler, payload: Payload, effects: seq<Effect>) {
    match h
    case Lifecycle(_) => LifecycleDone(payload, effects)
    case Suppression => SuppressionDone(payload, effects)
    case Plain => true
  }

  lemma {:induction false} HandlerReturns(h: Handler, payload: Payload, w: Weather)
    ensures var r := RunHandler(h, payload, w);
            r.outcome.Returned? ==> HandlerDone(h, payload, r.effects)
  {
    match h
    case Lifecycle(dedup) => LifecycleReturns(payload, dedup, w);
    case Suppression => SuppressionReturns(payload, w);
    case Plain =>
  }
}
