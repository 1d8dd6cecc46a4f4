/**
 What every interleaving keeps about one unit: fencing by claim token, final states that never reopen, bounded
 attempts and spaced retries. Holds for any number of workers, with crashes and with expired claims put back.
 */
module FiniteUnits {
  import opened Wrappers
  import opened Retry
  import opened FiniteTables
  import opened FiniteProtocol

  // ---- fencing ----

  predicate StageFits(stage: Stage, status: UnitStatus) {
    match stage
    case Holding => status.Running? || status.Ready?
    case Recording(_, _, _, _) => status.Running? || status.Ready?
    case DeadLettering => status.Failed?
    case Finalizing => true
  }

  predicate TaskOk(c: Cell, token: nat)
    requires token in c.tasks
  {
    && c.tasks[token].spec == c.spec
    && c.tasks[token].attempt == token
    && 1 <= token <= c.row.claimToken
    && (token == c.row.claimToken ==> StageFits(c.tasks[token].stage, c.row.status))
  }

  /** The holder of the current token is the only one who can still write, and only from the matching status. */
  ghost predicate Fenced(c: Cell) {
    && c.row.attemptCount == c.row.claimToken == |c.history.claimedAt|
    && forall token :: token in c.tasks ==> TaskOk(c, token)
  }

  lemma FencedStep(now: int, policy: Policy, c: Cell, a: Action)
    requires Fenced(c)
    ensures Fenced(CellStep(now, policy, c, a))
  {
    var d := CellStep(now, policy, c, a);
    forall token | token in d.tasks ensures TaskOk(d, token) {
      assert token in c.tasks ==> TaskOk(c, token);
    }
  }

  /** A final row never changes again; a failed one can only be dead-lettered. */
  predicate Settles(before: UnitRow, after: UnitRow) {
    && (Closed(before.status) ==> after == before)
    && (before.status.Failed? ==> after == before || after == before.(status := DeadLettered))
  }

  lemma SettledStep(now: int, policy: Policy, c: Cell, a: Action)
    requires Fenced(c)
    ensures Settles(c.row, CellStep(now, policy, c, a).row)
  {
    if (a.Record? || a.Bury?) && a.token in c.tasks {
      assert TaskOk(c, a.token);
    }
  }

  // ---- bounded and spaced attempts ----

  /** A retry that is about to be written, or was written, leaves an attempt and waits its backoff. */
  predicate RetryOk(c: Cell, policy: Policy, attempt: nat, at: Option<int>) {
    && 1 <= attempt <= |c.history.claimedAt|
    && attempt < c.spec.maxAttempts
    && at.Some? && at.value >= c.history.claimedAt[attempt - 1] + BackoffDelay(attempt, policy)
  }

  predicate WriteOk(c: Cell, policy: Policy, token: nat)
    requires token in c.tasks
  {
    var w := c.tasks[token].stage;
    w.Recording? && WillRetry(w.outcome) ==> RetryOk(c, policy, token, w.retryAt)
  }

  predicate SpacedAt(c: Cell, policy: Policy, k: nat)
    requires 1 <= k < |c.history.claimedAt|
  {
    c.history.claimedAt[k] >= c.history.claimedAt[k - 1] + BackoffDelay(k, policy)
  }

  ghost predicate Bounded(now: int, policy: Policy, c: Cell) {
    && c.row.attemptCount <= c.spec.maxAttempts + c.history.resets
    && (Claimable(c.row.status) ==> c.row.attemptCount < c.spec.maxAttempts + c.history.resets)
    && (c.row.status.RetryScheduled? ==> RetryOk(c, policy, c.row.attemptCount, c.row.nextAttemptAt))
    && (c.row.status.Ready? && c.history.resets == 0 ==> c.row.attemptCount == 0)
    && (forall i :: 0 <= i < |c.history.claimedAt| ==> c.history.claimedAt[i] <= now)
    && (forall token :: token in c.tasks ==> WriteOk(c, policy, token))
    && (c.history.resets == 0 ==> forall k :: 1 <= k < |c.history.claimedAt| ==> SpacedAt(c, policy, k))
  }

  lemma BoundedClaim(now: int, policy: Policy, c: Cell, owner: InstanceId, ahead: seq<ClaimKey>)
    requires Fenced(c) && Bounded(now, policy, c)
    ensures Bounded(now, policy, CellClaim(now, policy, c, owner, ahead))
  {
    var d := CellClaim(now, policy, c, owner, ahead);
    forall token | token in d.tasks ensures WriteOk(d, policy, token) {
      assert token in c.tasks ==> WriteOk(c, policy, token);
    }
    forall k | 1 <= k < |d.history.claimedAt| && d.history.resets == 0 ensures SpacedAt(d, policy, k) {
      assert k < |c.history.claimedAt| ==> SpacedAt(c, policy, k);
    }
  }

  lemma DecisionIsSpaced(now: int, policy: Policy, c: Cell, token: nat, h: HandlerResult)
    requires Fenced(c) && Bounded(now, policy, c) && token in c.tasks
    ensures var w := Decide(now, policy, c.tasks[token].spec, c.tasks[token].attempt, h);
            w.Recording? && (WillRetry(w.outcome) ==> RetryOk(c, policy, token, w.retryAt))
  {
    assert TaskOk(c, token);
    if h.Raised? {
      RetryDelayIsAFloor(h.error, token, policy);
    }
  }

  lemma BoundedFinish(now: int, policy: Policy, c: Cell, token: nat, h: HandlerResult)
    requires Fenced(c) && Bounded(now, policy, c)
    ensures Bounded(now, policy, CellStep(now, policy, c, Finish(token, h)))
  {
    var d := CellStep(now, policy, c, Finish(token, h));
    if Doing(c, token, Holding) {
      DecisionIsSpaced(now, policy, c, token, h);
      forall t | t in d.tasks ensures WriteOk(d, policy, t) {
        assert WriteOk(c, policy, t);
      }
      SpacingStays(policy, c, d);
    }
  }

  lemma BoundedRecord(now: int, policy: Policy, c: Cell, token: nat)
    requires Fenced(c) && Bounded(now, policy, c)
    ensures Bounded(now, policy, CellStep(now, policy, c, Record(token)))
  {
    var d := CellStep(now, policy, c, Record(token));
    if Writing(c, token) {
      assert TaskOk(c, token) && WriteOk(c, policy, token);
      forall t | t in d.tasks ensures WriteOk(d, policy, t) {
        assert WriteOk(c, policy, t);
      }
      SpacingStays(policy, c, d);
    }
  }

  /** Burying, finalizing, dying and being put back write no due time and claim nothing. */
  lemma BoundedOtherwise(now: int, policy: Policy, c: Cell, a: Action)
    requires Fenced(c) && Bounded(now, policy, c) && (a.Bury? || a.Finalize? || a.Drop? || a.PutBack?)
    ensures Bounded(now, policy, CellStep(now, policy, c, a))
  {
    var d := CellStep(now, policy, c, a);
    if a.Bury? && a.token in c.tasks {
      assert TaskOk(c, a.token);
    }
    forall t | t in d.tasks ensures WriteOk(d, policy, t) {
      assert WriteOk(c, policy, t);
    }
    SpacingStays(policy, c, d);
  }

  lemma SpacingStays(policy: Policy, c: Cell, d: Cell)
    requires d.history.claimedAt == c.history.claimedAt && d.history.resets >= c.history.resets
    requires c.history.resets == 0 ==> forall k :: 1 <= k < |c.history.claimedAt| ==> SpacedAt(c, policy, k)
    ensures d.history.resets == 0 ==> forall k :: 1 <= k < |d.history.claimedAt| ==> SpacedAt(d, policy, k)
  {
    forall k | 1 <= k < |d.history.claimedAt| && d.history.resets == 0 ensures SpacedAt(d, policy, k) {
      assert SpacedAt(c, policy, k);
    }
  }

  lemma BoundedStep(now: int, policy: Policy, c: Cell, a: Action)
    requires Fenced(c) && Bounded(now, policy, c)
    ensures Bounded(now, policy, CellStep(now, policy, c, a))
  {
    match a
    case Claim(owner, ahead) => BoundedClaim(now, policy, c, owner, ahead);
    case Finish(token, h) => BoundedFinish(now, policy, c, token, h);
    case Record(token) => BoundedRecord(now, policy, c, token);
    case _ => BoundedOtherwise(now, policy, c, a);
  }

  // ---- what rate limits ask for ----

  /** The claim after a rate-limited one waits as asked: already claimed, about to be written, or written. */
  predicate AskKept(c: Cell, token: nat)
    requires token in c.history.asked
  {
    var at := c.history.asked[token];
    && 1 <= token <= |c.history.claimedAt|
    && (token < |c.history.claimedAt| ==> c.history.claimedAt[token] >= at)
    && (token == |c.history.claimedAt| ==>
        && !Doing(c, token, Holding)
        && (Writing(c, token) && WillRetry(c.tasks[token].stage.outcome) ==>
            c.tasks[token].stage.retryAt.Some? && c.tasks[token].stage.retryAt.value >= at)
        && (c.row.status.RetryScheduled? ==> c.row.nextAttemptAt.Some? && c.row.nextAttemptAt.value >= at))
  }

  /** Only the current claim of a running unit still has its handler or its outcome to write. */
  predicate OpenIsCurrent(c: Cell, token: nat) {
    Doing(c, token, Holding) || Writing(c, token) ==> token == c.row.claimToken && c.row.status.Running?
  }

  ghost predicate AsksKept(c: Cell) {
    c.history.resets == 0 ==>
      && (forall token :: token in c.tasks ==> OpenIsCurrent(c, token))
      && (forall token :: token in c.history.asked ==> AskKept(c, token))
  }

  lemma AsksClaim(now: int, policy: Policy, c: Cell, owner: InstanceId, ahead: seq<ClaimKey>)
    requires Fenced(c) && Bounded(now, policy, c) && AsksKept(c)
    ensures AsksKept(CellClaim(now, policy, c, owner, ahead))
  {
    var d := CellClaim(now, policy, c, owner, ahead);
    if RowDue(now, c.row) && c.history.resets == 0 {
      forall token | token in d.tasks ensures OpenIsCurrent(d, token) {
        assert token in c.tasks ==> TaskOk(c, token) && OpenIsCurrent(c, token);
      }
      forall token | token in d.history.asked ensures AskKept(d, token) {
        assert AskKept(c, token);
      }
    }
  }

  lemma AsksFinish(now: int, policy: Policy, c: Cell, token: nat, h: HandlerResult)
    requires Fenced(c) && AsksKept(c)
    ensures AsksKept(CellStep(now, policy, c, Finish(token, h)))
  {
    var d := CellStep(now, policy, c, Finish(token, h));
    if Doing(c, token, Holding) && c.history.resets == 0 {
      assert TaskOk(c, token) && OpenIsCurrent(c, token);
      if h.Raised? {
        RetryDelayIsAFloor(h.error, token, policy);
      }
      forall t | t in d.tasks ensures OpenIsCurrent(d, t) {
        assert OpenIsCurrent(c, t);
      }
      forall t | t in d.history.asked ensures AskKept(d, t) {
        assert t in c.history.asked ==> AskKept(c, t);
      }
    }
  }

  lemma AsksOtherwise(now: int, policy: Policy, c: Cell, a: Action)
    requires Fenced(c) && AsksKept(c) && !a.Claim? && !a.Finish?
    ensures AsksKept(CellStep(now, policy, c, a))
  {
    var d := CellStep(now, policy, c, a);
    if d.history.resets == 0 {
      forall t | t in d.tasks ensures OpenIsCurrent(d, t) {
        assert t in c.tasks && TaskOk(c, t) && OpenIsCurrent(c, t);
      }
      forall t | t in d.history.asked ensures AskKept(d, t) {
        assert AskKept(c, t);
      }
    }
  }

  // ---- every unit, every run ----

  ghost predicate CellInv(now: int, policy: Policy, c: Cell) {
    Fenced(c) && Bounded(now, policy, c) && AsksKept(c) && !c.row.status.UnitPending?
  }

  lemma CellInvStep(now: int, policy: Policy, c: Cell, a: Action)
    requires CellInv(now, policy, c)
    ensures CellInv(now, policy, CellStep(now, policy, c, a)) && Settles(c.row, CellStep(now, policy, c, a).row)
  {
    FencedStep(now, policy, c, a);
    BoundedStep(now, policy, c, a);
    SettledStep(now, policy, c, a);
    match a
    case Claim(owner, ahead) => AsksClaim(now, policy, c, owner, ahead);
    case Finish(token, h) => AsksFinish(now, policy, c, token, h);
    case _ => AsksOtherwise(now, policy, c, a);
  }

  lemma CellInvLater(now: int, later: int, policy: Policy, c: Cell)
    requires CellInv(now, policy, c) && now <= later
    ensures CellInv(later, policy, c)
  {
  }

  lemma FreshCellInv(now: int, policy: Policy, spec: UnitSpec)
    ensures CellInv(now, policy, FreshCell(spec))
  {
  }

  ghost predicate CellOk(s: System, u: UnitId)
    requires u in s.cells
  {
    CellInv(s.now, s.policy, s.cells[u])
  }

  ghost predicate UnitInv(s: System) {
    forall u :: u in s.cells ==> u.run in s.runs && CellOk(s, u)
  }

  /** Planning adds fresh units of its run and touches no other. */
  lemma {:induction false} PlanAddsFreshUnits(cells: map<UnitId, Cell>, run: RunId, specs: seq<UnitSpec>)
    requires forall u :: u in cells ==> u.run != run
    ensures var d := PlanCells(cells, run, specs);
            && (forall u :: u in cells ==> u in d && d[u] == cells[u])
            && (forall u :: u in d && u !in cells ==> u.run == run && d[u] == FreshCell(d[u].spec))
            && (forall i :: 0 <= i < |specs| ==> UnitId(run, specs[i].key) in d)
  {
    if specs != [] {
      PlanAddsFreshUnits(cells, run, specs[..|specs| - 1]);
    }
  }

  /** The event is an action on the unit that can happen now. */
  predicate Names(s: System, e: Event, u: UnitId)
    requires u in s.cells
  {
    e.OnUnit? && e.unit == u && Enabled(s, u, e.action)
  }

  /** An event touches the unit it names and no other; planning only adds units nobody has worked on. */
  lemma {:induction false} StepIsLocal(s: System, e: Event)
    ensures forall u :: u in s.cells ==>
              u in Step(s, e).cells &&
              Step(s, e).cells[u] == if Names(s, e, u) then CellStep(s.now, s.policy, s.cells[u], e.action) else s.cells[u]
    ensures forall u :: u in Step(s, e).cells && u !in s.cells ==>
              e.Plan? && u.run == e.run && u.run in s.runs && !Planned(s, u.run) && Step(s, e).cells[u] == FreshCell(Step(s, e).cells[u].spec)
    ensures s.runs.Keys <= Step(s, e).runs.Keys && s.now <= Step(s, e).now && Step(s, e).policy == s.policy
  {
    if e.Plan? && !Planned(s, e.run) {
      PlanAddsFreshUnits(s.cells, e.run, e.specs);
    }
  }

  lemma {:induction false} UnitInvStep(s: System, e: Event)
    requires UnitInv(s)
    ensures UnitInv(Step(s, e))
    ensures forall u :: u in s.cells ==> u in Step(s, e).cells && Settles(s.cells[u].row, Step(s, e).cells[u].row)
  {
    var s' := Step(s, e);
    StepIsLocal(s, e);
    forall u | u in s'.cells
      ensures u.run in s'.runs && CellOk(s', u)
      ensures u in s.cells ==> Settles(s.cells[u].row, s'.cells[u].row)
    {
      if u in s.cells {
        assert CellOk(s, u);
        if Names(s, e, u) {
          CellInvStep(s.now, s.policy, s.cells[u], e.action);
        } else {
          CellInvLater(s.now, s'.now, s.policy, s.cells[u]);
        }
      } else {
        FreshCellInv(s'.now, s.policy, s'.cells[u].spec);
      }
    }
  }
}
