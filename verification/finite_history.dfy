/**
 The unit guarantees over whole runs of the finite protocol: final units stay final, stale workers change
 nothing, attempts and wakeups are bounded, and retries keep their backoff.
 */
module FiniteHistory {
  import opened Retry
  import opened FiniteTables
  import opened FiniteProtocol
  import opened FiniteUnits

  lemma {:induction false} RunKeepsUnits(s: System, es: seq<Event>)
    requires UnitInv(s)
    ensures UnitInv(Run(s, es))
    ensures forall u :: u in s.cells ==> u in Run(s, es).cells && Settles(s.cells[u].row, Run(s, es).cells[u].row)
    ensures Run(s, es).policy == s.policy
  {
    if es != [] {
      var mid := Run(s, es[..|es| - 1]);
      RunKeepsUnits(s, es[..|es| - 1]);
      UnitInvStep(mid, es[|es| - 1]);
      StepIsLocal(mid, es[|es| - 1]);
    }
  }

  lemma ReachableUnits(policy: Policy, es: seq<Event>)
    ensures UnitInv(Run(Init(policy), es)) && Run(Init(policy), es).policy == policy
  {
    RunKeepsUnits(Init(policy), es);
  }

  /**
   Whatever happens after a point of a run: a succeeded unit keeps its status and its result, a dead-lettered
   or cancelled one stays so, and a failed one is still failed or has been dead-lettered.
   */
  lemma {:induction false} ClosedUnitsNeverReopen(policy: Policy, past: seq<Event>, future: seq<Event>, u: UnitId)
    requires u in Run(Init(policy), past).cells
    ensures var before := Run(Init(policy), past);
            var after := Run(before, future);
            && u in after.cells
            && var r, r' := before.cells[u].row, after.cells[u].row;
               && (r.status.Succeeded? ==> r'.status.Succeeded? && r'.result == r.result)
               && (r.status.DeadLettered? ==> r'.status.DeadLettered?)
               && (r.status.Cancelled? ==> r'.status.Cancelled?)
               && (r.status.Failed? ==> r'.status.Failed? || r'.status.DeadLettered?)
  {
    ReachableUnits(policy, past);
    RunKeepsUnits(Run(Init(policy), past), future);
  }

  lemma TokenGrows(now: int, policy: Policy, c: Cell, a: Action)
    ensures c.row.claimToken <= CellStep(now, policy, c, a).row.claimToken
  {
  }

  lemma {:induction false} TokensGrow(s: System, es: seq<Event>, u: UnitId)
    requires u in s.cells
    ensures u in Run(s, es).cells && s.cells[u].row.claimToken <= Run(s, es).cells[u].row.claimToken
  {
    if es != [] {
      var mid, e := Run(s, es[..|es| - 1]), es[|es| - 1];
      TokensGrow(s, es[..|es| - 1], u);
      StepIsLocal(mid, e);
      if Names(mid, e, u) {
        TokenGrows(mid.now, mid.policy, mid.cells[u], e.action);
      }
    }
  }

  lemma StaleStep(s: System, u: UnitId, token: nat, bury: bool)
    requires u in s.cells && token != s.cells[u].row.claimToken
    ensures var s' := Step(s, OnUnit(u, if bury then Bury(token) else Record(token)));
            && s'.runs == s.runs && s'.attempts == s.attempts && s'.dispatch == s.dispatch
            && s'.cells.Keys == s.cells.Keys
            && forall v :: v in s.cells ==> s'.cells[v].row == s.cells[v].row && s'.cells[v].history == s.cells[v].history
  {
  }

  /**
   A superseded claim is superseded for good: whenever its worker writes, and whatever its outcome, neither the
   unit nor the attempts table nor any run changes.
   */
  lemma {:induction false} StaleWriteChangesNothing(policy: Policy, past: seq<Event>, future: seq<Event>, u: UnitId,
                                                    token: nat, bury: bool)
    requires u in Run(Init(policy), past).cells && token < Run(Init(policy), past).cells[u].row.claimToken
    ensures var s := Run(Run(Init(policy), past), future);
            var s' := Step(s, OnUnit(u, if bury then Bury(token) else Record(token)));
            && s'.runs == s.runs && s'.attempts == s.attempts && s'.dispatch == s.dispatch
            && s'.cells.Keys == s.cells.Keys
            && forall v :: v in s.cells ==> s'.cells[v].row == s.cells[v].row && s'.cells[v].history == s.cells[v].history
  {
    TokensGrow(Run(Init(policy), past), future, u);
    StaleStep(Run(Run(Init(policy), past), future), u, token, bury);
  }

  /** Dead-lettering never hits a stale token: nobody can claim a unit between its failure and its burial. */
  lemma {:induction false} BurialIsNeverStale(policy: Policy, es: seq<Event>, u: UnitId, token: nat)
    requires var s := Run(Init(policy), es);
             u in s.cells && Doing(s.cells[u], token, DeadLettering) && token == s.cells[u].row.claimToken
    ensures var s := Run(Init(policy), es);
            s.cells[u].row.status.Failed? && !RowDue(s.now, s.cells[u].row)
  {
    ReachableUnits(policy, es);
    var s := Run(Init(policy), es);
    assert CellOk(s, u) && TaskOk(s.cells[u], token);
  }

  // ---- attempts ----

  /** Every claim is an attempt, attempts are limited, and a scheduled retry always has one left. */
  lemma {:induction false} AttemptsAreBounded(policy: Policy, es: seq<Event>, u: UnitId)
    requires u in Run(Init(policy), es).cells
    ensures var c := Run(Init(policy), es).cells[u];
            && c.row.attemptCount == c.row.claimToken == |c.history.claimedAt|
            && c.row.attemptCount <= c.spec.maxAttempts + c.history.resets
            && (c.row.status.RetryScheduled? ==> c.row.attemptCount < c.spec.maxAttempts)
  {
    ReachableUnits(policy, es);
    assert CellOk(Run(Init(policy), es), u);
  }

  function TotalClaims(s: System, us: seq<UnitId>): nat
    requires forall u :: u in us ==> u in s.cells
  {
    if us == [] then 0 else |s.cells[us[0]].history.claimedAt| + TotalClaims(s, us[1..])
  }

  function TotalAllowed(s: System, us: seq<UnitId>): nat
    requires forall u :: u in us ==> u in s.cells
  {
    if us == [] then 0 else s.cells[us[0]].spec.maxAttempts + s.cells[us[0]].history.resets + TotalAllowed(s, us[1..])
  }

  /** So the claims of any set of units are at most the sum of their attempt limits, plus the times they were put back. */
  lemma {:induction false} ClaimsAreBounded(policy: Policy, es: seq<Event>, us: seq<UnitId>)
    requires forall u :: u in us ==> u in Run(Init(policy), es).cells
    ensures TotalClaims(Run(Init(policy), es), us) <= TotalAllowed(Run(Init(policy), es), us)
  {
    if us != [] {
      AttemptsAreBounded(policy, es, us[0]);
      ClaimsAreBounded(policy, es, us[1..]);
    }
  }

  // ---- wakeups ----

  ghost predicate WakeupOk(s: System, k: DispatchKey) {
    && k.unit in s.cells
    && (k.RetryDispatch? ==> 1 <= k.attempt < s.cells[k.unit].spec.maxAttempts)
  }

  ghost predicate WakeupInv(s: System) {
    forall k :: k in s.dispatch ==> WakeupOk(s, k)
  }

  lemma OldWakeupStays(s: System, e: Event, k: DispatchKey)
    requires WakeupOk(s, k)
    ensures WakeupOk(Step(s, e), k)
  {
    StepIsLocal(s, e);
  }

  lemma NewWakeupIsOk(s: System, e: Event, k: DispatchKey)
    requires UnitInv(s) && k in Step(s, e).dispatch && k !in s.dispatch
    ensures WakeupOk(Step(s, e), k)
  {
    if e.Plan? {
      PlanAddsFreshUnits(s.cells, e.run, e.specs);
    } else if e.Enqueue? {
      assert CellOk(s, e.unit);
    }
  }

  lemma WakeupStep(s: System, e: Event)
    requires UnitInv(s) && WakeupInv(s)
    ensures WakeupInv(Step(s, e))
  {
    forall k | k in Step(s, e).dispatch ensures WakeupOk(Step(s, e), k) {
      if k in s.dispatch {
        OldWakeupStays(s, e, k);
      } else {
        NewWakeupIsOk(s, e, k);
      }
    }
  }

  lemma {:induction false} ReachableWakeups(policy: Policy, es: seq<Event>)
    ensures WakeupInv(Run(Init(policy), es))
  {
    if es != [] {
      ReachableWakeups(policy, es[..|es| - 1]);
      ReachableUnits(policy, es[..|es| - 1]);
      WakeupStep(Run(Init(policy), es[..|es| - 1]), es[|es| - 1]);
    }
  }

  function WakeupsOf(s: System, u: UnitId): set<DispatchKey> {
    set k | k in s.dispatch && k.unit == u
  }

  function PossibleWakeups(u: UnitId, limit: nat): set<DispatchKey> {
    if limit <= 1 then {FirstDispatch(u)} else PossibleWakeups(u, limit - 1) + {RetryDispatch(u, limit - 1)}
  }

  lemma {:induction false} PossibleWakeupsCount(u: UnitId, limit: nat)
    requires limit >= 1
    ensures |PossibleWakeups(u, limit)| == limit
    ensures forall k :: k in PossibleWakeups(u, limit) <==> k == FirstDispatch(u) || (k.RetryDispatch? && k.unit == u && 1 <= k.attempt < limit)
  {
    if limit > 1 {
      PossibleWakeupsCount(u, limit - 1);
    }
  }

  lemma SubsetIsSmaller<T>(a: set<T>, b: set<T>)
    requires a <= b
    ensures |a| <= |b|
  {
    assert b == a + (b - a);
  }

  /** However often the planner and the dispatcher cycle, a unit gets at most one wakeup per allowed attempt. */
  lemma {:induction false} WakeupsAreBounded(policy: Policy, es: seq<Event>, u: UnitId)
    requires u in Run(Init(policy), es).cells
    ensures |WakeupsOf(Run(Init(policy), es), u)| <= Run(Init(policy), es).cells[u].spec.maxAttempts
  {
    var s := Run(Init(policy), es);
    ReachableWakeups(policy, es);
    PossibleWakeupsCount(u, s.cells[u].spec.maxAttempts);
    forall k | k in WakeupsOf(s, u) ensures k in PossibleWakeups(u, s.cells[u].spec.maxAttempts) {
      assert WakeupOk(s, k);
    }
    SubsetIsSmaller(WakeupsOf(s, u), PossibleWakeups(u, s.cells[u].spec.maxAttempts));
  }

  // ---- backoff ----

  lemma {:induction false} SpacingAddsUp(c: Cell, policy: Policy, k: nat)
    requires k < |c.history.claimedAt|
    requires forall i :: 1 <= i < |c.history.claimedAt| ==> SpacedAt(c, policy, i)
    ensures c.history.claimedAt[k] >= c.history.claimedAt[0] + TotalBackoff(k, policy)
  {
    if k > 0 {
      SpacingAddsUp(c, policy, k - 1);
      assert SpacedAt(c, policy, k);
    }
  }

  /**
   Unless somebody put the unit back by hand, the claim after `k` failures comes no earlier than the first
   claim plus the backoffs of the `k` failures, which is base * (2^k - 1) while no delay reached the cap.
   */
  lemma {:induction false} RetriesKeepTheirBackoff(policy: Policy, es: seq<Event>, u: UnitId, k: nat)
    requires u in Run(Init(policy), es).cells
    requires var c := Run(Init(policy), es).cells[u]; c.history.resets == 0 && k < |c.history.claimedAt|
    ensures var at := Run(Init(policy), es).cells[u].history.claimedAt;
            && at[k] >= at[0] + TotalBackoff(k, policy)
            && (k > 0 && policy.retryBase * Pow2(k - 1) <= policy.retryCap ==> at[k] >= at[0] + policy.retryBase * (Pow2(k) - 1))
  {
    var s := Run(Init(policy), es);
    ReachableUnits(policy, es);
    assert CellOk(s, u);
    SpacingAddsUp(s.cells[u], policy, k);
    if k > 0 && policy.retryBase * Pow2(k - 1) <= policy.retryCap {
      UncappedTotalBackoff(k, policy);
    }
  }

  /** The attempt of this claim ended in a rate limit that asked to wait until then. */
  predicate AskedUntil(c: Cell, token: nat, at: int) {
    token in c.history.asked && c.history.asked[token] == at && !Doing(c, token, Holding) && token <= c.row.claimToken
  }

  lemma AskStays(now: int, policy: Policy, c: Cell, a: Action, token: nat, at: int)
    requires AskedUntil(c, token, at)
    ensures AskedUntil(CellStep(now, policy, c, a), token, at)
  {
  }

  lemma {:induction false} AskStaysForever(s: System, es: seq<Event>, u: UnitId, token: nat, at: int)
    requires u in s.cells && AskedUntil(s.cells[u], token, at)
    ensures u in Run(s, es).cells && AskedUntil(Run(s, es).cells[u], token, at)
  {
    if es != [] {
      var mid, e := Run(s, es[..|es| - 1]), es[|es| - 1];
      AskStaysForever(s, es[..|es| - 1], u, token, at);
      StepIsLocal(mid, e);
      if Names(mid, e, u) {
        AskStays(mid.now, mid.policy, mid.cells[u], e.action, token, at);
      }
    }
  }

  lemma Asks(s: System, u: UnitId, token: nat, error: HandlerError)
    requires UnitInv(s) && u in s.cells && Doing(s.cells[u], token, Holding) && HasTurn(s, s.cells[u].tasks[token])
    requires error.class_.RateLimitedError?
    ensures var s' := Step(s, OnUnit(u, Finish(token, Raised(error))));
            u in s'.cells && AskedUntil(s'.cells[u], token, s.now + error.class_.retryAfter)
  {
    assert CellOk(s, u) && TaskOk(s.cells[u], token);
  }

  /**
   Over whole runs too no retry comes before a rate limit allows it: unless somebody put the unit back by hand, the
   claim that follows a rate-limited attempt comes no earlier than the failure plus the wait it asked for.
   */
  lemma {:induction false} RateLimitsAreKept(policy: Policy, past: seq<Event>, future: seq<Event>, u: UnitId,
                                             token: nat, error: HandlerError)
    requires var s := Run(Init(policy), past);
             && u in s.cells && Doing(s.cells[u], token, Holding) && HasTurn(s, s.cells[u].tasks[token])
             && error.class_.RateLimitedError?
    requires var t := Run(Step(Run(Init(policy), past), OnUnit(u, Finish(token, Raised(error)))), future);
             u in t.cells && t.cells[u].history.resets == 0 && token < |t.cells[u].history.claimedAt|
    ensures var t := Run(Step(Run(Init(policy), past), OnUnit(u, Finish(token, Raised(error)))), future);
            t.cells[u].history.claimedAt[token] >= Run(Init(policy), past).now + error.class_.retryAfter
  {
    var s, e := Run(Init(policy), past), OnUnit(u, Finish(token, Raised(error)));
    ReachableUnits(policy, past);
    UnitInvStep(s, e);
    RunKeepsUnits(Step(s, e), future);
    Asks(s, u, token, error);
    AskStaysForever(Step(s, e), future, u, token, s.now + error.class_.retryAfter);
    assert CellOk(Run(Step(s, e), future), u) && AskKept(Run(Step(s, e), future).cells[u], token);
  }
}
