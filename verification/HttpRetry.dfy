/** Retrying one HTTP call, with separate attempt budgets for failures before and after the request was sent. */
module HttpRetry {
  import opened Common

  datatype Failure = ConnectTimeout | ConnectError | PoolTimeout | ReadTimeout | Other(code: nat)

  /** What one attempt comes to. */
  datatype Outcome = Response(status: nat) | Fails(failure: Failure)

  datatype Ending = Returned(status: nat) | Raised(failure: Failure) | NoAttempt

  datatype Policy = Policy(exceptions: set<Failure>, statuses: set<nat>, maxAttempts: int, connectMax: Option<int>)

  const CONNECT_PHASE: set<Failure> := {ConnectTimeout, ConnectError, PoolTimeout}
  const DEFAULT := Policy({ConnectTimeout, ReadTimeout, PoolTimeout, ConnectError}, {502, 503, 504}, 3, None)
  const CONNECT_ONLY := Policy(CONNECT_PHASE, {}, 5, None)

  function ConnectBudget(p: Policy): int {
    if p.connectMax.Some? then p.connectMax.value else p.maxAttempts
  }

  function EffectiveMax(p: Policy): int {
    if p.maxAttempts > ConnectBudget(p) then p.maxAttempts else ConnectBudget(p)
  }

  /** The request reached the wire: every outcome but a connection-phase failure. */
  predicate Sent(o: Outcome) {
    o.Fails? ==> o.failure !in CONNECT_PHASE
  }

  /** Attempt number `i` (from 1) came to `o`, and the policy allows another. */
  predicate Retryable(p: Policy, o: Outcome, i: nat) {
    match o
    case Response(status) => status in p.statuses && i < p.maxAttempts
    case Fails(f) => f in p.exceptions && i < if f in CONNECT_PHASE then ConnectBudget(p) else p.maxAttempts
  }

  /** Attempt `n` is the first whose outcome is not retried. */
  ghost predicate StopsAt(p: Policy, outcomes: nat -> Outcome, n: nat) {
    n >= 1 && !Retryable(p, outcomes(n), n) && forall i :: 1 <= i < n ==> Retryable(p, outcomes(i), i)
  }

  /**
   The loop ends at the first outcome not retryable at its index, within the larger budget; it
   makes no call only if both budgets are below 1.
   */
  method WithRetry(p: Policy, outcomes: nat -> Outcome) returns (ending: Ending, calls: nat)
    ensures EffectiveMax(p) >= 1 ==>
              StopsAt(p, outcomes, calls) && calls <= EffectiveMax(p)
    ensures calls > 0 ==>
              match outcomes(calls) case Response(s) => ending == Returned(s) case Fails(f) => ending == Raised(f)
    ensures EffectiveMax(p) < 1 ==> calls == 0 && ending == NoAttempt
  {
    var lastFailure: Option<Failure> := None;
    calls := 0;
    while calls < EffectiveMax(p)
      invariant 0 <= calls && (calls == 0 || calls < EffectiveMax(p))
      invariant calls == 0 ==> lastFailure.None?
      invariant forall i :: 1 <= i <= calls ==> Retryable(p, outcomes(i), i)
      decreases EffectiveMax(p) - calls
    {
      calls := calls + 1;
      match outcomes(calls)
      case Fails(f) =>
        if f !in p.exceptions { return Raised(f), calls; }
        lastFailure := Some(f);
        var limit := if f in CONNECT_PHASE then ConnectBudget(p) else p.maxAttempts;
        if calls >= limit { return Raised(f), calls; }
      case Response(status) =>
        if !(status in p.statuses && calls < p.maxAttempts) { return Returned(status), calls; }
    }
    ending := if lastFailure.Some? then Raised(lastFailure.value) else NoAttempt;
  }

  method WithConnectPhaseRetry(outcomes: nat -> Outcome) returns (ending: Ending, calls: nat)
    ensures 1 <= calls <= 5
    ensures match outcomes(calls) case Response(s) => ending == Returned(s) case Fails(f) => ending == Raised(f)
    ensures forall i :: 1 <= i < calls ==> !Sent(outcomes(i))
    ensures Sent(outcomes(calls)) || calls == 5
    ensures Sends(outcomes, calls) == if Sent(outcomes(calls)) then 1 else 0
  {
    ending, calls := WithRetry(CONNECT_ONLY, outcomes);
    ConnectOnlySends(outcomes, calls);
  }

  /** The number of attempts, up to the `n`-th, in which the request was sent. */
  function Sends(outcomes: nat -> Outcome, n: nat): nat {
    if n == 0 then 0 else Sends(outcomes, n - 1) + if Sent(outcomes(n)) then 1 else 0
  }

  /** The stopping attempt exists, is unique, and lies within the larger budget. */
  lemma {:induction false} StopsOnce(p: Policy, outcomes: nat -> Outcome, from: nat) returns (n: nat)
    requires 1 <= from <= EffectiveMax(p) && forall i :: 1 <= i < from ==> Retryable(p, outcomes(i), i)
    ensures StopsAt(p, outcomes, n) && n <= EffectiveMax(p)
    ensures forall m :: StopsAt(p, outcomes, m) ==> m == n
    decreases EffectiveMax(p) - from
  {
    if Retryable(p, outcomes(from), from) {
      n := StopsOnce(p, outcomes, from + 1);
    } else {
      n := from;
      forall m: nat | StopsAt(p, outcomes, m) ensures m == n {
        assert m < n ==> Retryable(p, outcomes(m), m);
        assert n < m ==> Retryable(p, outcomes(n), n);
      }
    }
  }

  predicate Transient(o: Outcome) {
    match o
    case Response(status) => status in {502, 503, 504}
    case Fails(f) => !f.Other?
  }

  /** The policy for idempotent calls: up to three attempts, going on exactly after a transient outcome. */
  lemma {:induction false} DefaultPolicy(outcomes: nat -> Outcome, n: nat)
    ensures StopsAt(DEFAULT, outcomes, n) <==>
            && 1 <= n <= 3 && (forall i :: 1 <= i < n ==> Transient(outcomes(i))) && (n < 3 ==> !Transient(outcomes(n)))
  {
    forall o: Outcome, i: nat ensures Retryable(DEFAULT, o, i) <==> Transient(o) && i < 3 {}
    if n > 3 {
      assert !Retryable(DEFAULT, outcomes(3), 3);
    }
  }

  /** A separate connection budget is used in full: as long as connecting fails, all its attempts are made. */
  lemma {:induction false} ConnectBudgetIsUsed(p: Policy, outcomes: nat -> Outcome, n: nat, budget: nat)
    requires StopsAt(p, outcomes, n) && CONNECT_PHASE <= p.exceptions && p.connectMax == Some(budget)
    requires forall i :: 1 <= i < budget ==> !Sent(outcomes(i))
    ensures n >= budget
    ensures n == budget || p.maxAttempts > budget || budget == 0
  {
    assert n < budget ==> !Sent(outcomes(n));
    assert n > budget > 0 ==> Retryable(p, outcomes(budget), budget);
  }

  /** Attempts beyond the ordinary budget follow connection-phase failures only. */
  lemma {:induction false} ExtraAttemptsAfterConnectFailures(p: Policy, outcomes: nat -> Outcome, n: nat, i: nat)
    requires StopsAt(p, outcomes, n) && 1 <= i < n && i >= p.maxAttempts
    ensures !Sent(outcomes(i))
  {
    assert Retryable(p, outcomes(i), i);
  }

  lemma {:induction false} SendsBounded(p: Policy, outcomes: nat -> Outcome, n: nat)
    requires forall i :: 1 <= i <= n ==> Retryable(p, outcomes(i), i)
    ensures Sends(outcomes, n) <= n && (Sends(outcomes, n) > 0 ==> Sends(outcomes, n) < p.maxAttempts)
  {
    if n == 0 {
    } else {
      SendsBounded(p, outcomes, n - 1);
      assert Retryable(p, outcomes(n), n);
    }
  }

  /**
   The server sees at most `maxAttempts` requests (and one at least allowed), however long the
   connection budget is.
   */
  lemma {:induction false} LoadIsBounded(p: Policy, outcomes: nat -> Outcome, n: nat)
    requires StopsAt(p, outcomes, n)
    ensures Sends(outcomes, n) <= if p.maxAttempts > 1 then p.maxAttempts else 1
  {
    SendsBounded(p, outcomes, n - 1);
  }

  lemma {:induction false} ConnectOnlySends(outcomes: nat -> Outcome, n: nat)
    requires StopsAt(CONNECT_ONLY, outcomes, n)
    ensures forall i :: 1 <= i < n ==> !Sent(outcomes(i))
    ensures Sends(outcomes, n) == if Sent(outcomes(n)) then 1 else 0
  {
    forall i | 1 <= i < n ensures !Sent(outcomes(i)) { assert Retryable(CONNECT_ONLY, outcomes(i), i); }
    NothingSent(outcomes, n - 1);
  }

  lemma {:induction false} NothingSent(outcomes: nat -> Outcome, n: nat)
    requires forall i :: 1 <= i <= n ==> !Sent(outcomes(i))
    ensures Sends(outcomes, n) == 0
  {
    if n == 0 {
    } else {
      NothingSent(outcomes, n - 1);
    }
  }
}
