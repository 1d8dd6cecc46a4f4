/**
 What the attempts table says about the units, over every run of the finite protocol: a row is written once, and the
 row of a unit's current attempt is the one its status came from.
 */
module FiniteAttempts {
  import opened Wrappers
  import opened Retry
  import opened FiniteTables
  import opened FiniteProtocol
  import opened FiniteUnits
  import opened FiniteHistory

  type Attempts = map<AttemptId, AttemptRow>

  /** The attempt a finished unit goes back to, by its status; its error is the newest the unit has. */
  predicate Tells(row: UnitRow, a: AttemptRow) {
    && (match row.status
        case Succeeded => a == AttemptRow(OutcomeSucceeded, None)
        case Cancelled => a.outcome == OutcomeCancelled && a.error.Some?
        case Failed => a.outcome == OutcomePermanent && a.error.Some?
        case DeadLettered => a.outcome == OutcomePermanent && a.error.Some?
        case RetryScheduled => (a.outcome == OutcomeRetryable || a.outcome == OutcomeRateLimited) && a.error.Some?
        case _ => false)
    && (a.error.Some? ==> row.lastError == a.error)
  }

  /** The current attempt has its row exactly once the unit has left its worker, and an earlier one asked for a retry. */
  ghost predicate Accounted(attempts: Attempts, u: UnitId, row: UnitRow) {
    && (AttemptId(u, row.claimToken) in attempts <==> row.status in {Succeeded, UnitStatus.Failed, DeadLettered, Cancelled, RetryScheduled})
    && (AttemptId(u, row.claimToken) in attempts ==> Tells(row, attempts[AttemptId(u, row.claimToken)]))
    && (forall n: nat :: AttemptId(u, n) in attempts ==> 1 <= n <= row.claimToken)
    && (forall n: nat :: n < row.claimToken && AttemptId(u, n) in attempts ==> EarlierAttempt(attempts[AttemptId(u, n)]))
  }

  predicate EarlierAttempt(a: AttemptRow) {
    (a.outcome == OutcomeRetryable || a.outcome == OutcomeRateLimited) && a.error.Some?
  }

  /** A claim that has not recorded its outcome has no row yet, and what it is about to write fits its outcome. */
  predicate Unwritten(attempts: Attempts, u: UnitId, c: Cell, token: nat)
    requires token in c.tasks
  {
    Doing(c, token, Holding) || Writing(c, token) ==>
      && AttemptId(u, token) !in attempts
      && (Writing(c, token) ==> (c.tasks[token].stage.error.None? <==> c.tasks[token].stage.outcome.OutcomeSucceeded?))
  }

  ghost predicate Fits(attempts: Attempts, u: UnitId, c: Cell) {
    Accounted(attempts, u, c.row) && forall token :: token in c.tasks ==> Unwritten(attempts, u, c, token)
  }

  ghost predicate AttemptsInv(s: System) {
    && (forall id :: id in s.attempts ==> id.unit in s.cells)
    && (forall u :: u in s.cells ==> Fits(s.attempts, u, s.cells[u]))
  }

  /** Rows of other units do not matter. */
  lemma SameRowsFit(attempts: Attempts, attempts': Attempts, u: UnitId, c: Cell)
    requires Fits(attempts, u, c)
    requires forall n: nat :: AttemptId(u, n) in attempts <==> AttemptId(u, n) in attempts'
    requires forall n: nat :: AttemptId(u, n) in attempts ==> attempts'[AttemptId(u, n)] == attempts[AttemptId(u, n)]
    ensures Fits(attempts', u, c)
  {
    forall token | token in c.tasks ensures Unwritten(attempts', u, c, token) {
      assert Unwritten(attempts, u, c, token);
    }
  }

  lemma RecordFits(s: System, u: UnitId, token: nat)
    requires UnitInv(s) && AttemptsInv(s) && u in s.cells && Writing(s.cells[u], token)
    ensures Fits(Attempted(s, u, s.cells[u], token), u, CellRecord(s.cells[u], token))
  {
    var c := s.cells[u];
    var d, attempts := CellRecord(c, token), Attempted(s, u, c, token);
    assert CellOk(s, u) && TaskOk(c, token) && Unwritten(s.attempts, u, c, token);
    forall t | t in d.tasks ensures Unwritten(attempts, u, d, t) {
      assert Unwritten(s.attempts, u, c, t);
    }
  }

  lemma ClaimFits(now: int, policy: Policy, attempts: Attempts, u: UnitId, c: Cell, owner: InstanceId, ahead: seq<ClaimKey>)
    requires Fenced(c) && Fits(attempts, u, c)
    ensures Fits(attempts, u, CellClaim(now, policy, c, owner, ahead))
  {
    var d := CellClaim(now, policy, c, owner, ahead);
    forall t | t in d.tasks ensures Unwritten(attempts, u, d, t) {
      assert t in c.tasks ==> Unwritten(attempts, u, c, t);
    }
  }

  lemma OtherwiseFits(now: int, policy: Policy, attempts: Attempts, u: UnitId, c: Cell, a: Action)
    requires Fenced(c) && Fits(attempts, u, c) && !a.Claim? && !(a.Record? && Writing(c, a.token))
    ensures Fits(attempts, u, CellStep(now, policy, c, a))
  {
    var d := CellStep(now, policy, c, a);
    if a.Bury? && a.token in c.tasks {
      assert TaskOk(c, a.token);
    }
    forall t | t in d.tasks ensures Unwritten(attempts, u, d, t) {
      assert Unwritten(attempts, u, c, t);
    }
  }

  /** A step adds at most one row, and changes none. */
  lemma {:induction false} AttemptsGrow(s: System, e: Event)
    ensures forall id :: id in s.attempts ==> id in Step(s, e).attempts && Step(s, e).attempts[id] == s.attempts[id]
    ensures forall id :: id in Step(s, e).attempts && id !in s.attempts ==>
              id.unit in s.cells && Names(s, e, id.unit) && e.action.Record? && Writing(s.cells[id.unit], e.action.token)
  {
  }

  lemma {:induction false} AttemptsInvStep(s: System, e: Event)
    requires UnitInv(s) && AttemptsInv(s)
    ensures AttemptsInv(Step(s, e))
  {
    var s' := Step(s, e);
    StepIsLocal(s, e);
    AttemptsGrow(s, e);
    forall u | u in s'.cells ensures Fits(s'.attempts, u, s'.cells[u]) {
      if u in s.cells {
        KnownUnitFits(s, e, u);
      } else {
        assert forall n: nat :: AttemptId(u, n) !in s'.attempts;
      }
    }
  }

  lemma KnownUnitFits(s: System, e: Event, u: UnitId)
    requires UnitInv(s) && AttemptsInv(s) && u in s.cells
    ensures var s' := Step(s, e);
            u in s'.cells && Fits(s'.attempts, u, s'.cells[u])
  {
    if Names(s, e, u) && e.action.Record? && Writing(s.cells[u], e.action.token) {
      RecordFits(s, u, e.action.token);
    } else {
      AttemptsGrow(s, e);
      NamedFits(s, e, u);
      SameRowsFit(s.attempts, Step(s, e).attempts, u, Step(s, e).cells[u]);
    }
  }

  lemma NamedFits(s: System, e: Event, u: UnitId)
    requires UnitInv(s) && AttemptsInv(s) && u in s.cells
    requires !(Names(s, e, u) && e.action.Record? && Writing(s.cells[u], e.action.token))
    ensures u in Step(s, e).cells && Fits(s.attempts, u, Step(s, e).cells[u])
  {
    StepIsLocal(s, e);
    assert CellOk(s, u);
    if Names(s, e, u) {
      match e.action
      case Claim(owner, ahead) => ClaimFits(s.now, s.policy, s.attempts, u, s.cells[u], owner, ahead);
      case _ => OtherwiseFits(s.now, s.policy, s.attempts, u, s.cells[u], e.action);
    }
  }

  lemma {:induction false} RunKeepsAttempts(s: System, es: seq<Event>)
    requires UnitInv(s) && AttemptsInv(s)
    ensures AttemptsInv(Run(s, es))
    ensures forall id :: id in s.attempts ==> id in Run(s, es).attempts && Run(s, es).attempts[id] == s.attempts[id]
  {
    if es != [] {
      var mid, e := Run(s, es[..|es| - 1]), es[|es| - 1];
      RunKeepsAttempts(s, es[..|es| - 1]);
      RunKeepsUnits(s, es[..|es| - 1]);
      AttemptsInvStep(mid, e);
      AttemptsGrow(mid, e);
    }
  }

  /** Once written, the row of an attempt is the same in every future. */
  lemma {:induction false} AttemptsAreWrittenOnce(policy: Policy, past: seq<Event>, future: seq<Event>, id: AttemptId)
    requires id in Run(Init(policy), past).attempts
    ensures var before := Run(Init(policy), past);
            var after := Run(before, future);
            id in after.attempts && after.attempts[id] == before.attempts[id]
  {
    ReachableUnits(policy, past);
    RunKeepsAttempts(Init(policy), past);
    RunKeepsAttempts(Run(Init(policy), past), future);
  }

  /** In every reachable state the status of a unit is the outcome on record for its current attempt. */
  lemma {:induction false} StatusIsOnRecord(policy: Policy, es: seq<Event>, u: UnitId)
    requires u in Run(Init(policy), es).cells
    ensures var s := Run(Init(policy), es);
            s.cells[u].row.attemptCount == s.cells[u].row.claimToken && Accounted(s.attempts, u, s.cells[u].row)
  {
    ReachableUnits(policy, es);
    RunKeepsAttempts(Init(policy), es);
    assert CellOk(Run(Init(policy), es), u);
  }
}
