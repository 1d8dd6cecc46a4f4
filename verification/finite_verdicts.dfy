/**
 Which runs can still get a verdict after crashes and after polls that were cut short: the exact condition, for
 every reachable state, with and without an operator who puts units back.
 */
module FiniteVerdicts {
  import opened Wrappers
  import opened Retry
  import opened FiniteTables
  import opened FiniteProtocol
  import opened FiniteUnits
  import opened FiniteHistory
  import opened FinitePolls
  import opened FiniteRuns
  import opened FiniteBlocking

  // ---- what loses a verdict ----

  /** A unit is blocked, or a worker dies before its finalize transaction. */
  ghost predicate LosesWork(s: System, e: Event, operator: bool) {
    BlocksAUnit(s, e, operator) || LosesFinalize(s, e)
  }

  ghost predicate DiesSafely(s: System, es: seq<Event>, operator: bool) {
    es == [] || (DiesSafely(s, es[..|es| - 1], operator) && !LosesWork(Run(s, es[..|es| - 1]), es[|es| - 1], operator))
  }

  lemma {:induction false} FinalizersLive(s: System, es: seq<Event>, operator: bool)
    requires DiesSafely(s, es, operator)
    ensures FinalizesSafely(s, es)
  {
    if es != [] {
      FinalizersLive(s, es[..|es| - 1], operator);
    }
  }

  lemma NewUnitsAreReady(s: System, e: Event, v: UnitId)
    requires v in Step(s, e).cells && v !in s.cells
    ensures Step(s, e).cells[v].row.status.Ready? && !Planned(s, v.run)
  {
    StepIsLocal(s, e);
  }

  lemma NoneOfTheRunBlocks(s: System, e: Event, run: RunId, operator: bool)
    requires Inv(s) && !SomeBlocked(s, run, operator) && !BlocksAUnit(s, e, operator)
    ensures !SomeBlocked(Step(s, e), run, operator)
  {
    forall u | u in Step(s, e).cells && u.run == run ensures !Blocked(Step(s, e), u, operator) {
      if u in s.cells {
        UnblockedStays(s, e, u, operator);
      } else {
        NewUnitsAreReady(s, e, u);
      }
    }
  }

  /** No unit of any run is blocked, and every run whose units are closed has a finalizer. */
  ghost predicate NothingBlocks(s: System, operator: bool) {
    forall run :: !SomeBlocked(s, run, operator)
  }

  lemma {:induction false} NoneIsBlocked(policy: Policy, es: seq<Event>, operator: bool)
    requires DiesSafely(Init(policy), es, operator)
    ensures NothingBlocks(Run(Init(policy), es), operator)
  {
    if es != [] {
      var n := |es| - 1;
      NoneIsBlocked(policy, es[..n], operator);
      ReachableInv(policy, es[..n]);
      forall run ensures !SomeBlocked(Step(Run(Init(policy), es[..n]), es[n]), run, operator) {
        NoneOfTheRunBlocks(Run(Init(policy), es[..n]), es[n], run, operator);
      }
    }
  }

  // ---- any other run can be driven to its verdict ----

  /** The run has its verdict or can still get it. */
  ghost predicate OnTrack(s: System, run: RunId, operator: bool) {
    Decided(s, run) || (Underway(s, run) && CanFinish(s, run, operator))
  }

  lemma StaysUnderwayOrDecided(s: System, e: Event, run: RunId)
    requires UnitInv(s) && e != CancelRun(run)
    requires Decided(s, run) || Underway(s, run)
    ensures Decided(s, run) ==> Decided(Step(s, e), run)
    ensures Underway(s, run) ==> Decided(Step(s, e), run) || Underway(Step(s, e), run)
  {
    StepIsLocal(s, e);
    RunRowStep(s, e, run);
    StepEvolves(s, e);
    EvolvedRunFacts(s, Step(s, e), run);
  }

  /** As long as no work is lost and nobody cancels it, a run that can finish still can. */
  lemma StaysOnTrack(s: System, e: Event, run: RunId, operator: bool)
    requires Inv(s) && OnTrack(s, run, operator) && e != CancelRun(run) && !LosesWork(s, e, operator)
    ensures OnTrack(Step(s, e), run, operator)
  {
    StaysUnderwayOrDecided(s, e, run);
    if !Decided(Step(s, e), run) {
      NoneOfTheRunBlocks(s, e, run, operator);
      if VerdictOwed(Step(s, e), run) {
        NothingLostFor(s, e, run);
      }
    }
  }

  /** The events so far lead from `s` to `t`; nobody cancels the run and no work is lost. */
  ghost predicate Leads(s: System, es: seq<Event>, t: System, run: RunId, operator: bool) {
    t == Run(s, es) && Allowed(es, run, operator) && DiesSafely(s, es, operator)
  }

  lemma LeadsOn(s: System, es: seq<Event>, t: System, run: RunId, operator: bool, e: Event)
    requires Leads(s, es, t, run, operator) && Allows(e, run, operator) && !LosesWork(t, e, operator)
    ensures Leads(s, es + [e], Step(t, e), run, operator)
  {
    assert (es + [e])[..|es|] == es;
  }

  lemma {:induction false} LeadsFurther(s: System, a: seq<Event>, t: System, b: seq<Event>, run: RunId, operator: bool)
    requires Leads(s, a, t, run, operator) && Allowed(b, run, operator) && DiesSafely(t, b, operator)
    ensures Leads(s, a + b, Run(t, b), run, operator)
  {
    if b == [] {
      assert a + b == a;
    } else {
      var n := |b| - 1;
      LeadsFurther(s, a, t, b[..n], run, operator);
      LeadsOn(s, a + b[..n], Run(t, b[..n]), run, operator, b[n]);
      assert a + b == a + b[..n] + [b[n]];
    }
  }

  lemma {:induction false} StaysOnTrackAlong(s: System, es: seq<Event>, run: RunId, operator: bool)
    requires Inv(s) && OnTrack(s, run, operator) && Allowed(es, run, operator) && DiesSafely(s, es, operator)
    ensures OnTrack(Run(s, es), run, operator) && Inv(Run(s, es))
  {
    RunKeepsInv(s, es);
    if es != [] {
      var n := |es| - 1;
      StaysOnTrackAlong(s, es[..n], run, operator);
      assert Allows(es[n], run, operator);
      StaysOnTrack(Run(s, es[..n]), es[n], run, operator);
    }
  }

  lemma {:induction false} WorkIsSafe(s: System, es: seq<Event>, run: RunId, operator: bool)
    requires OnlyWork(s, es)
    ensures Allowed(es, run, operator) && DiesSafely(s, es, operator)
  {
    if es != [] {
      WorkIsSafe(s, es[..|es| - 1], run, operator);
      assert Works(Run(s, es[..|es| - 1]), es[|es| - 1]);
    }
  }

  /** One more action on a unit that can happen now. */
  lemma Act(s: System, es: seq<Event>, t: System, u: UnitId, a: Action, operator: bool)
    returns (es': seq<Event>, t': System)
    requires Leads(s, es, t, u.run, operator) && u in t.cells && Enabled(t, u, a) && (a.PutBack? ==> operator)
    requires !LosesWork(t, OnUnit(u, a), operator)
    ensures Leads(s, es', t', u.run, operator) && t' == Step(t, OnUnit(u, a)) && t'.now == t.now && t'.policy == t.policy
    ensures u in t'.cells && t'.cells[u] == CellStep(t.now, t.policy, t.cells[u], a)
  {
    es', t' := es + [OnUnit(u, a)], Step(t, OnUnit(u, a));
    LeadsOn(s, es, t, u.run, operator, OnUnit(u, a));
    StepIsLocal(t, OnUnit(u, a));
  }

  ghost predicate ClosesUnit(s: System, es: seq<Event>, t: System, u: UnitId, operator: bool) {
    Leads(s, es, t, u.run, operator) && u in t.cells && Closed(t.cells[u].row.status)
  }

  /** The holder whose turn it is ends its handler and records the outcome. */
  lemma Finishing(s: System, es: seq<Event>, t: System, u: UnitId, operator: bool)
    returns (es': seq<Event>, t': System)
    requires Leads(s, es, t, u.run, operator) && u in t.cells && Doing(t.cells[u], t.cells[u].row.claimToken, Holding)
    requires HasTurn(t, t.cells[u].tasks[t.cells[u].row.claimToken])
    ensures ClosesUnit(s, es', t', u, operator)
  {
    var c, token := t.cells[u], t.cells[u].row.claimToken;
    FinishedCloses(t.now, t.policy, c);
    es', t' := Act(s, es, t, u, Finish(token, Returned(None)), operator);
    es', t' := Act(s, es', t', u, Record(token), operator);
  }

  lemma FinishedCloses(now: int, policy: Policy, c: Cell)
    requires Doing(c, c.row.claimToken, Holding)
    ensures var d := CellStep(now, policy, CellStep(now, policy, c, Finish(c.row.claimToken, Returned(None))), Record(c.row.claimToken));
            Closed(d.row.status)
  {
  }

  lemma NobodyLiveWaits(t: System, k: ClaimKey)
    requires QueueInv(t) && Doomed(t, k)
    ensures !WaitedFor(t, k)
  {
    forall v | v in t.cells && WaitsBehind(t.cells[v], k) ensures !Alive(t, v) {
      var ahead := t.cells[v].tasks[t.cells[v].row.claimToken].ahead;
      var i :| 0 <= i < |ahead| && ahead[i] == k;
      assert QueueOk(t, ahead) && QueuedAt(t, ahead, i);
      if !LostAhead(t, ahead) && !Lost(t, k) {
        QueuedIsAlive(t, ahead, i);
      }
    }
  }

  /** Claiming a unit cuts no poll short if its last claim is lost anyway, or only has its finalize transaction to do. */
  lemma ClaimIsSafe(t: System, u: UnitId, operator: bool)
    requires Inv(t) && u in t.cells && Claimable(t.cells[u].row.status) && (operator || !Alive(t, u))
    ensures !LosesWork(t, OnUnit(u, Claim("instance:a", [])), operator)
  {
    var k := CurrentClaim(t, u);
    assert CellOk(t, u);
    if !operator && !Doing(t.cells[u], k.token, Finalizing) && k !in t.finished {
      if InHand(t, k) {
        assert TaskOk(t.cells[u], k.token);
        SoundStages(t.cells[u], k.token);
      }
      assert Doomed(t, k);
      NobodyLiveWaits(t, k);
    }
  }

  lemma Claiming(s: System, es: seq<Event>, t: System, u: UnitId, operator: bool)
    returns (es': seq<Event>, t': System)
    requires Inv(s) && Leads(s, es, t, u.run, operator) && u in t.cells && RowDue(t.now, t.cells[u].row)
    requires operator || !Alive(t, u)
    ensures ClosesUnit(s, es', t', u, operator)
  {
    RunKeepsInv(s, es);
    ClaimIsSafe(t, u, operator);
    es', t' := Act(s, es, t, u, Claim("instance:a", []), operator);
    es', t' := Finishing(s, es', t', u, operator);
  }

  predicate Passed(at: Option<int>, now: int) {
    at.None? || at.value < now
  }

  function TimeOf(at: Option<int>): int {
    if at.Some? then at.value else 0
  }

  /** Every time the row waits for has passed. */
  lemma Ripening(s: System, es: seq<Event>, t: System, u: UnitId, operator: bool)
    returns (es': seq<Event>, t': System)
    requires Leads(s, es, t, u.run, operator) && u in t.cells
    ensures Leads(s, es', t', u.run, operator) && t' == t.(now := t'.now)
    ensures Passed(t.cells[u].row.nextAttemptAt, t'.now) && Passed(t.cells[u].row.claimExpiresAt, t'.now)
  {
    var row := t.cells[u].row;
    var later := Max(TimeOf(row.nextAttemptAt), TimeOf(row.claimExpiresAt)) + 1;
    var e := Advance(Max(0, later - t.now));
    es', t' := es + [e], Step(t, e);
    LeadsOn(s, es, t, u.run, operator, e);
  }

  /** A unit nobody will finish is claimed afresh once it may be. */
  lemma ClaimingLater(s: System, es: seq<Event>, t: System, u: UnitId, operator: bool)
    returns (es': seq<Event>, t': System)
    requires Inv(s) && Leads(s, es, t, u.run, operator) && u in t.cells && Claimable(t.cells[u].row.status)
    requires operator || !Alive(t, u)
    ensures ClosesUnit(s, es', t', u, operator)
  {
    es', t' := Ripening(s, es, t, u, operator);
    SameAlive(t, t', u);
    es', t' := Claiming(s, es', t', u, operator);
  }

  lemma SameAlive(t: System, t': System, u: UnitId)
    requires u in t.cells && t' == t.(now := t'.now)
    ensures Alive(t', u) <==> Alive(t, u)
  {
    forall k ensures Lost(t', k) <==> Lost(t, k) {
    }
  }

  lemma Burying(s: System, es: seq<Event>, t: System, u: UnitId, operator: bool)
    returns (es': seq<Event>, t': System)
    requires Leads(s, es, t, u.run, operator) && u in t.cells && Doing(t.cells[u], t.cells[u].row.claimToken, DeadLettering)
    ensures ClosesUnit(s, es', t', u, operator)
  {
    es', t' := Act(s, es, t, u, Bury(t.cells[u].row.claimToken), operator);
  }

  lemma Recorded(s: System, es: seq<Event>, t: System, u: UnitId, operator: bool)
    returns (es': seq<Event>, t': System)
    requires Inv(s) && Leads(s, es, t, u.run, operator) && u in t.cells && Writing(t.cells[u], t.cells[u].row.claimToken)
    ensures ClosesUnit(s, es', t', u, operator)
  {
    var outcome := t.cells[u].tasks[t.cells[u].row.claimToken].stage.outcome;
    es', t' := Act(s, es, t, u, Record(t.cells[u].row.claimToken), operator);
    if outcome.OutcomePermanent? {
      es', t' := Burying(s, es', t', u, operator);
    } else if WillRetry(outcome) {
      es', t' := ClaimingLater(s, es', t', u, operator);
    }
  }

  /** A live holder is let to its turn first. */
  lemma Taking(s: System, u: UnitId, operator: bool) returns (es: seq<Event>, t: System)
    requires Inv(s) && u in s.cells && Alive(s, u) && Doing(s.cells[u], s.cells[u].row.claimToken, Holding)
    ensures ClosesUnit(s, es, t, u, operator)
  {
    var k := CurrentClaim(s, u);
    NotFinished(s, k);
    es, t := TurnComes(s, k);
    WorkIsSafe(s, es, u.run, operator);
    es, t := Finishing(s, es, t, u, operator);
  }

  /** Every open unit that is not blocked can be closed, whatever stage its current claim is in. */
  lemma CloseUnit(s: System, u: UnitId, operator: bool) returns (es: seq<Event>, t: System)
    requires Inv(s) && u in s.cells && !Closed(s.cells[u].row.status) && !Blocked(s, u, operator)
    ensures ClosesUnit(s, es, t, u, operator)
  {
    assert CellOk(s, u);
    var c := s.cells[u];
    if c.row.status.Failed? {
      es, t := Burying(s, [], s, u, operator);
    } else if Writing(c, c.row.claimToken) {
      es, t := Recorded(s, [], s, u, operator);
    } else if Alive(s, u) {
      es, t := Taking(s, u, operator);
    } else if Claimable(c.row.status) {
      es, t := ClaimingLater(s, [], s, u, operator);
    } else {
      es, t := Act(s, [], s, u, PutBack, operator);
      es, t := ClaimingLater(s, es, t, u, operator);
    }
  }

  function OpenUnits(s: System, run: RunId): set<UnitId> {
    set u | u in s.cells && u.run == run && !Closed(s.cells[u].row.status)
  }

  /** A planned run gets no new units and its closed ones stay closed. */
  lemma {:induction false} OpenUnitsShrink(s: System, es: seq<Event>, run: RunId)
    requires UnitInv(s) && Planned(s, run)
    ensures OpenUnits(Run(s, es), run) <= OpenUnits(s, run) && Planned(Run(s, es), run)
  {
    if es != [] {
      var t, e := Run(s, es[..|es| - 1]), es[|es| - 1];
      OpenUnitsShrink(s, es[..|es| - 1], run);
      RunKeepsUnits(s, es[..|es| - 1]);
      StepEvolves(t, e);
      EvolvedRunFacts(t, Step(t, e), run);
    }
  }

  lemma CloseOne(s: System, run: RunId, operator: bool) returns (es: seq<Event>, t: System)
    requires Inv(s) && Underway(s, run) && CanFinish(s, run, operator) && !Done(s, run)
    ensures Leads(s, es, t, run, operator) && Inv(t) && OnTrack(t, run, operator)
    ensures |OpenUnits(t, run)| < |OpenUnits(s, run)|
  {
    var u :| u in s.cells && u.run == run && !Closed(s.cells[u].row.status);
    es, t := CloseUnit(s, u, operator);
    OpenUnitsShrink(s, es, run);
    StaysOnTrackAlong(s, es, run, operator);
    assert u in OpenUnits(s, run) && u !in OpenUnits(t, run);
    SubsetIsSmaller(OpenUnits(t, run), OpenUnits(s, run) - {u});
  }

  lemma FinalizeIt(s: System, run: RunId, operator: bool) returns (es: seq<Event>, t: System)
    requires VerdictOwed(s, run) && SomeoneFinalizes(s, run)
    ensures Leads(s, es, t, run, operator) && Decided(t, run)
  {
    var u, token :| u in s.cells && u.run == run && Doing(s.cells[u], token, Finalizing);
    FinalizerDecides(s, u, token);
    es, t := Act(s, [], s, u, Finalize(token), operator);
  }

  lemma {:induction false} DriveToVerdict(s: System, run: RunId, operator: bool) returns (es: seq<Event>, t: System)
    requires Inv(s) && OnTrack(s, run, operator)
    ensures Leads(s, es, t, run, operator) && Decided(t, run)
    decreases |OpenUnits(s, run)|
  {
    if Decided(s, run) {
      es, t := [], s;
    } else if Done(s, run) {
      es, t := FinalizeIt(s, run, operator);
    } else {
      var first, mid := CloseOne(s, run, operator);
      var rest;
      rest, t := DriveToVerdict(mid, run, operator);
      LeadsFurther(s, first, mid, rest, run, operator);
      es := first + rest;
    }
  }

  /**
   The exact condition. A planned, running run can still get its verdict if and only if no failed unit lost the
   worker that would bury it, no running unit lost its worker or waits in a poll that was cut short before its turn,
   unless an operator can put it back, and, if all its units are closed, some worker still has the finalize
   transaction to do. The future that decides it then needs no further loss of work.
   */
  lemma {:induction false} VerdictIsPossible(policy: Policy, past: seq<Event>, run: RunId, operator: bool)
    requires Underway(Run(Init(policy), past), run)
    ensures var s := Run(Init(policy), past);
            if CanFinish(s, run, operator)
            then exists future: seq<Event> :: Allowed(future, run, operator) && DiesSafely(s, future, operator) && Decided(Run(s, future), run)
            else forall future: seq<Event> :: Allowed(future, run, operator) ==> !Decided(Run(s, future), run)
  {
    var s := Run(Init(policy), past);
    ReachableInv(policy, past);
    if CanFinish(s, run, operator) {
      var es, t := DriveToVerdict(s, run, operator);
      assert Allowed(es, run, operator) && DiesSafely(s, es, operator) && Decided(Run(s, es), run);
    } else {
      forall future: seq<Event> | Allowed(future, run, operator) ensures !Decided(Run(s, future), run) {
        HopelessForever(s, future, run, operator);
      }
    }
  }

  /**
   Nothing else loses a verdict: as long as no worker dies at the wrong moment and no poll is cut short ahead of a
   claim that waits in it, every running run can still be decided.
   */
  lemma {:induction false} VerdictIsNeverLost(policy: Policy, es: seq<Event>, run: RunId, operator: bool)
    requires DiesSafely(Init(policy), es, operator) && Underway(Run(Init(policy), es), run)
    ensures exists future: seq<Event> :: Allowed(future, run, operator) && Decided(Run(Run(Init(policy), es), future), run)
  {
    NoneIsBlocked(policy, es, operator);
    if Done(Run(Init(policy), es), run) {
      FinalizersLive(Init(policy), es, operator);
      NoLostFinalization(policy, es, run);
    }
    VerdictIsPossible(policy, es, run, operator);
  }

  /** Once no worker has work in hand and no unit is left to claim, a planned run has its verdict or was cancelled. */
  lemma {:induction false} IdleRunsAreDecided(policy: Policy, es: seq<Event>, run: RunId)
    requires DiesSafely(Init(policy), es, false)
    requires var s := Run(Init(policy), es);
             && run in s.runs && Planned(s, run) && Idle(s)
             && forall u :: u in s.cells && u.run == run ==> !Claimable(s.cells[u].row.status)
    ensures Rank(Run(Init(policy), es).runs[run].status) == 3
  {
    var s := Run(Init(policy), es);
    NoneIsBlocked(policy, es, false);
    ReachableInv(policy, es);
    assert !SomeBlocked(s, run, false);
    forall u | u in s.cells && u.run == run ensures Closed(s.cells[u].row.status) {
      assert CellOk(s, u) && !Blocked(s, u, false) && s.cells[u].tasks == map[];
    }
    FinalizersLive(Init(policy), es, false);
    NoLostFinalization(policy, es, run);
  }
}
