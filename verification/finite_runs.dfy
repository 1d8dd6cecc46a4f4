/**
 What every interleaving keeps about whole runs: verdicts stay true of the units, status never goes back, and only a
 crash between closing and finalizing leaves a closed run without a verdict.
 */
module FiniteRuns {
  import opened Retry
  import opened FiniteTables
  import opened FiniteProtocol
  import opened FiniteUnits
  import opened FiniteHistory

  // ---- verdicts ----

  predicate AllGood(s: System, run: RunId) {
    forall u :: u in s.cells && u.run == run ==> s.cells[u].row.status.Succeeded? || s.cells[u].row.status.Cancelled?
  }

  ghost predicate VerdictHolds(s: System, run: RunId)
    requires run in s.runs
  {
    && (s.runs[run].status.RunSucceeded? ==> Planned(s, run) && AllGood(s, run))
    && (s.runs[run].status.RunFailed? ==> Done(s, run) && HasDead(s, run))
    && (Planned(s, run) ==> !s.runs[run].status.RunPending? && !s.runs[run].status.RunPlanning?)
  }

  ghost predicate VerdictInv(s: System) {
    forall run :: run in s.runs ==> VerdictHolds(s, run)
  }

  function Rank(status: RunStatus): nat {
    match status
    case RunPending => 0
    case RunPlanning => 1
    case RunRunning => 2
    case _ => 3
  }

  /** What one step can do to the units, as far as runs are concerned. */
  ghost predicate Evolves(s: System, s': System) {
    && (forall u :: u in s.cells ==> u in s'.cells && Settles(s.cells[u].row, s'.cells[u].row))
    && (forall u :: u in s'.cells && u !in s.cells ==>
        u.run in s.runs && !Planned(s, u.run) && s'.cells[u].row.status.Ready?)
  }

  lemma StepEvolves(s: System, e: Event)
    requires UnitInv(s)
    ensures Evolves(s, Step(s, e))
  {
    UnitInvStep(s, e);
    StepIsLocal(s, e);
  }

  /** The witnesses of a verdict survive. */
  lemma EvolvedRunFacts(s: System, s': System, run: RunId)
    requires Evolves(s, s')
    ensures Planned(s, run) ==> Planned(s', run)
    ensures HasDead(s, run) ==> HasDead(s', run)
    ensures Planned(s, run) && Done(s, run) ==> Done(s', run)
    ensures Planned(s, run) && AllGood(s, run) ==> AllGood(s', run)
  {
    if Planned(s, run) {
      var u :| u in s.cells && u.run == run;
      assert u in s'.cells;
    }
    if HasDead(s, run) {
      var u :| u in s.cells && u.run == run && s.cells[u].row.status.DeadLettered?;
      assert u in s'.cells && s'.cells[u].row.status.DeadLettered?;
    }
  }

  /** How one step can write a run row. */
  lemma RunRowStep(s: System, e: Event, run: RunId)
    requires run in Step(s, e).runs
    ensures var s' := Step(s, e);
            || (run in s.runs && s'.runs[run] == s.runs[run] && (Planned(s', run) ==> Planned(s, run) || Rank(s.runs[run].status) >= 2))
            || (run !in s.runs && s'.runs[run].status.RunPending? && s'.cells == s.cells)
            || (run in s.runs && e == CancelRun(run) && s'.runs[run].status.RunCancelled?)
            || (run in s.runs && e.Plan? && Rank(s.runs[run].status) <= 1 && s'.runs[run].status.RunRunning?)
            || (run in s.runs && s.runs[run].status.RunRunning? && Planned(s, run) && Done(s, run) &&
                s'.runs[run].status == if HasDead(s, run) then RunFailed else RunSucceeded)
  {
    var s' := Step(s, e);
    if e.OnUnit? && e.action.Finalize? && e.unit in s.cells && e.unit.run == run {
      assert Planned(s, run);
    }
    if Planned(s', run) && !Planned(s, run) {
      var u :| u in s'.cells && u.run == run;
      StepIsLocal(s, e);
      assert u !in s.cells;
    }
  }

  lemma VerdictStep(s: System, e: Event, run: RunId)
    requires UnitInv(s) && VerdictInv(s) && run in Step(s, e).runs
    ensures VerdictHolds(Step(s, e), run)
    ensures run in s.runs ==> Rank(s.runs[run].status) <= Rank(Step(s, e).runs[run].status)
    ensures run in s.runs && Rank(s.runs[run].status) == 3 && e != CancelRun(run) ==> Step(s, e).runs[run] == s.runs[run]
  {
    var s' := Step(s, e);
    StepEvolves(s, e);
    EvolvedRunFacts(s, s', run);
    RunRowStep(s, e, run);
    if run in s.runs {
      assert VerdictHolds(s, run);
    }
  }

  lemma {:induction false} ReachableVerdicts(policy: Policy, es: seq<Event>)
    ensures VerdictInv(Run(Init(policy), es))
  {
    if es != [] {
      var s, e := Run(Init(policy), es[..|es| - 1]), es[|es| - 1];
      ReachableVerdicts(policy, es[..|es| - 1]);
      ReachableUnits(policy, es[..|es| - 1]);
      forall run | run in Step(s, e).runs ensures VerdictHolds(Step(s, e), run) {
        VerdictStep(s, e, run);
      }
    }
  }

  /**
   In every reachable state a succeeded run has only succeeded or cancelled units, and a failed run has only
   closed units and a dead-lettered one; a unit between its permanent failure and its burial blocks both.
   */
  lemma {:induction false} VerdictsAreRight(policy: Policy, es: seq<Event>, run: RunId)
    requires run in Run(Init(policy), es).runs
    ensures var s := Run(Init(policy), es);
            && (s.runs[run].status.RunSucceeded? ==> Planned(s, run) && AllGood(s, run))
            && (s.runs[run].status.RunFailed? ==> Done(s, run) && HasDead(s, run))
            && ((exists u :: u in s.cells && u.run == run && s.cells[u].row.status.Failed?) ==>
                !s.runs[run].status.RunSucceeded? && !s.runs[run].status.RunFailed?)
  {
    ReachableVerdicts(policy, es);
    assert VerdictHolds(Run(Init(policy), es), run);
  }

  lemma {:induction false} StatusNeverGoesBack(policy: Policy, past: seq<Event>, future: seq<Event>, run: RunId)
    requires run in Run(Init(policy), past).runs
    ensures var before, after := Run(Init(policy), past), Run(Run(Init(policy), past), future);
            && run in after.runs
            && Rank(before.runs[run].status) <= Rank(after.runs[run].status)
            && (Rank(before.runs[run].status) == 3 && CancelRun(run) !in future ==> after.runs[run] == before.runs[run])
  {
    if future != [] {
      var rest := future[..|future| - 1];
      StatusNeverGoesBack(policy, past, rest, run);
      RunAppend(Init(policy), past, rest);
      ReachableUnits(policy, past + rest);
      ReachableVerdicts(policy, past + rest);
      StepIsLocal(Run(Run(Init(policy), past), rest), future[|future| - 1]);
      VerdictStep(Run(Run(Init(policy), past), rest), future[|future| - 1], run);
    }
  }

  lemma {:induction false} RunAppend(s: System, a: seq<Event>, b: seq<Event>)
    ensures Run(s, a + b) == Run(Run(s, a), b)
  {
    if b == [] {
      assert a + b == a;
    } else {
      assert (a + b)[..|a + b| - 1] == a + b[..|b| - 1];
      RunAppend(s, a, b[..|b| - 1]);
    }
  }

  // ---- no lost finalization ----

  ghost predicate VerdictOwed(s: System, run: RunId) {
    run in s.runs && s.runs[run].status.RunRunning? && Planned(s, run) && Done(s, run)
  }

  /** A worker closed a unit of the run and still has its finalize transaction to do. */
  ghost predicate SomeoneFinalizes(s: System, run: RunId) {
    exists u, token :: u in s.cells && u.run == run && Doing(s.cells[u], token, Finalizing)
  }

  /** The worker dies after closing a unit and before finalizing its run. */
  predicate LosesFinalize(s: System, e: Event) {
    e.OnUnit? && e.unit in s.cells && e.action.Drop? && Doing(s.cells[e.unit], e.action.token, Finalizing)
  }

  lemma FinalizerStays(now: int, policy: Policy, c: Cell, a: Action, token: nat)
    requires Fenced(c) && Doing(c, token, Finalizing)
    requires a != Finalize(token) && a != Drop(token)
    ensures Doing(CellStep(now, policy, c, a), token, Finalizing)
  {
    assert TaskOk(c, token);
  }

  lemma ClosingLeavesAFinalizer(now: int, policy: Policy, c: Cell, a: Action)
    requires Fenced(c)
    requires !Closed(c.row.status) && Closed(CellStep(now, policy, c, a).row.status)
    ensures (a.Record? || a.Bury?) && Doing(CellStep(now, policy, c, a), a.token, Finalizing)
  {
  }

  ghost predicate NothingLost(s: System) {
    forall run :: VerdictOwed(s, run) ==> SomeoneFinalizes(s, run)
  }

  /** One step seen from the units: only the named one moves, and new ones are ready. */
  ghost predicate Moves(s: System, e: Event, s': System) {
    && (forall u :: u in s.cells ==>
        u in s'.cells && s'.cells[u] == if Names(s, e, u) then CellStep(s.now, s.policy, s.cells[u], e.action) else s.cells[u])
    && (forall u :: u in s'.cells && u !in s.cells ==> s'.cells[u].row.status.Ready?)
  }

  lemma ClosedByThisStep(s: System, e: Event, s': System, run: RunId)
    requires Moves(s, e, s') && Planned(s', run) && Done(s', run)
    ensures Done(s, run) ||
            (e.OnUnit? && e.unit in s.cells && Names(s, e, e.unit) && e.unit.run == run && !Closed(s.cells[e.unit].row.status))
  {
    if !Done(s, run) {
      var u :| u in s.cells && u.run == run && !Closed(s.cells[u].row.status);
      assert u in s'.cells && Closed(s'.cells[u].row.status);
    }
  }

  /** A run that was not planned before the step is not done after it. */
  lemma NewRunsAreOpen(s: System, e: Event, s': System, run: RunId)
    requires Moves(s, e, s') && Planned(s', run) && Done(s', run)
    ensures Planned(s, run)
  {
    var v :| v in s'.cells && v.run == run;
    assert v in s.cells;
  }

  /** The finalizer of an owed run survives every step but its own. */
  lemma OwedFinalizerStays(s: System, e: Event, s': System, run: RunId)
    requires UnitInv(s) && Moves(s, e, s') && SomeoneFinalizes(s, run) && !LosesFinalize(s, e)
    requires e.OnUnit? && e.action.Finalize? && e.unit.run == run ==>
               !(e.unit in s.cells && Doing(s.cells[e.unit], e.action.token, Finalizing))
    ensures SomeoneFinalizes(s', run)
  {
    var u, token :| u in s.cells && u.run == run && Doing(s.cells[u], token, Finalizing);
    assert CellOk(s, u);
    if Names(s, e, u) {
      FinalizerStays(s.now, s.policy, s.cells[u], e.action, token);
    }
    assert Doing(s'.cells[u], token, Finalizing);
  }

  lemma NothingLostFor(s: System, e: Event, run: RunId)
    requires UnitInv(s) && (VerdictOwed(s, run) ==> SomeoneFinalizes(s, run)) && !LosesFinalize(s, e)
    requires VerdictOwed(Step(s, e), run)
    ensures SomeoneFinalizes(Step(s, e), run)
  {
    var s' := Step(s, e);
    StepIsLocal(s, e);
    assert Moves(s, e, s');
    NewRunsAreOpen(s, e, s', run);
    if Done(s, run) {
      OwedBefore(s, e, run);
      OwedFinalizerStays(s, e, s', run);
    } else {
      JustClosed(s, e, s', run);
    }
  }

  /** The verdict was owed before the step too, and the step was not the finalize transaction of the run. */
  lemma OwedBefore(s: System, e: Event, run: RunId)
    requires Planned(s, run) && Done(s, run) && VerdictOwed(Step(s, e), run)
    ensures VerdictOwed(s, run)
    ensures e.OnUnit? && e.action.Finalize? && e.unit.run == run ==>
              !(e.unit in s.cells && Doing(s.cells[e.unit], e.action.token, Finalizing))
  {
    RunRowStep(s, e, run);
  }

  lemma JustClosed(s: System, e: Event, s': System, run: RunId)
    requires UnitInv(s) && Moves(s, e, s') && Planned(s', run) && Done(s', run) && !Done(s, run)
    ensures SomeoneFinalizes(s', run)
  {
    ClosedByThisStep(s, e, s', run);
    assert CellOk(s, e.unit) && e.unit in s'.cells;
    ClosingLeavesAFinalizer(s.now, s.policy, s.cells[e.unit], e.action);
    assert Doing(s'.cells[e.unit], e.action.token, Finalizing);
  }

  /** No worker dies between closing a unit and finalizing its run. */
  ghost predicate FinalizesSafely(s: System, es: seq<Event>) {
    es == [] || (FinalizesSafely(s, es[..|es| - 1]) && !LosesFinalize(Run(s, es[..|es| - 1]), es[|es| - 1]))
  }

  lemma {:induction false} NothingIsLost(policy: Policy, es: seq<Event>)
    requires FinalizesSafely(Init(policy), es)
    ensures NothingLost(Run(Init(policy), es))
  {
    if es != [] {
      var n := |es| - 1;
      var s := Run(Init(policy), es[..n]);
      NothingIsLost(policy, es[..n]);
      ReachableUnits(policy, es[..n]);
      forall run | VerdictOwed(Step(s, es[n]), run) ensures SomeoneFinalizes(Step(s, es[n]), run) {
        NothingLostFor(s, es[n], run);
      }
    }
  }

  predicate Idle(s: System) {
    forall u :: u in s.cells ==> s.cells[u].tasks == map[]
  }

  /**
   No lost finalization. Any number of workers, planners and clients interleave, claims expire and workers
   crash, only not between closing a unit and finalizing its run: then a run with all its units closed and no
   verdict has a worker that will give it one, and once every worker is idle a planned run whose units are
   closed has its verdict.
   */
  lemma {:induction false} NoLostFinalization(policy: Policy, es: seq<Event>, run: RunId)
    requires FinalizesSafely(Init(policy), es)
    requires run in Run(Init(policy), es).runs && Planned(Run(Init(policy), es), run)
    requires Done(Run(Init(policy), es), run)
    ensures var s := Run(Init(policy), es);
            && (s.runs[run].status.RunRunning? ==> SomeoneFinalizes(s, run))
            && (Idle(s) ==> Rank(s.runs[run].status) == 3)
  {
    NothingIsLost(policy, es);
    ReachableVerdicts(policy, es);
    var s := Run(Init(policy), es);
    assert VerdictHolds(s, run);
    if s.runs[run].status.RunRunning? {
      assert VerdictOwed(s, run);
    }
  }

  /** A run is stuck when it is owed a verdict and no worker is about to give one. */
  ghost predicate Stuck(s: System, run: RunId) {
    VerdictOwed(s, run) && !SomeoneFinalizes(s, run)
  }

  lemma NoNewFinalizer(now: int, policy: Policy, c: Cell, a: Action, token: nat)
    requires Fenced(c) && Closed(c.row.status) && !Doing(c, token, Finalizing)
    ensures !Doing(CellStep(now, policy, c, a), token, Finalizing)
  {
    if token in c.tasks {
      assert TaskOk(c, token);
    }
  }

  lemma NobodyStartsFinalizing(s: System, e: Event, run: RunId)
    requires UnitInv(s) && Done(s, run) && Planned(s, run) && !SomeoneFinalizes(s, run)
    ensures !SomeoneFinalizes(Step(s, e), run)
  {
    var s' := Step(s, e);
    StepIsLocal(s, e);
    forall u, token | u in s'.cells && u.run == run ensures !Doing(s'.cells[u], token, Finalizing) {
      assert u in s.cells && CellOk(s, u) && !Doing(s.cells[u], token, Finalizing);
      if Names(s, e, u) {
        NoNewFinalizer(s.now, s.policy, s.cells[u], e.action, token);
      }
    }
  }

  lemma NobodyWritesTheRun(s: System, e: Event, run: RunId)
    requires run in s.runs && s.runs[run].status.RunRunning? && Planned(s, run) && !SomeoneFinalizes(s, run)
    requires e != CancelRun(run)
    ensures run in Step(s, e).runs && Step(s, e).runs[run] == s.runs[run]
  {
    if e.OnUnit? && e.action.Finalize? && e.unit in s.cells && e.unit.run == run {
      assert !Doing(s.cells[e.unit], e.action.token, Finalizing);
    }
  }

  lemma StuckStep(s: System, e: Event, run: RunId)
    requires UnitInv(s) && Stuck(s, run) && e != CancelRun(run)
    ensures Stuck(Step(s, e), run)
  {
    StepEvolves(s, e);
    EvolvedRunFacts(s, Step(s, e), run);
    NobodyWritesTheRun(s, e, run);
    NobodyStartsFinalizing(s, e, run);
  }

  /**
   The other half: without such a worker nothing but a cancellation ever ends the run. So a run that is owed a
   verdict can still get one from finalize exactly when some worker has its finalize transaction to do.
   */
  lemma {:induction false} StuckForever(s: System, es: seq<Event>, run: RunId)
    requires UnitInv(s) && Stuck(s, run) && CancelRun(run) !in es
    ensures Stuck(Run(s, es), run)
  {
    if es != [] {
      StuckForever(s, es[..|es| - 1], run);
      RunKeepsUnits(s, es[..|es| - 1]);
      StuckStep(Run(s, es[..|es| - 1]), es[|es| - 1], run);
    }
  }

  predicate Decided(s: System, run: RunId) {
    run in s.runs && (s.runs[run].status.RunSucceeded? || s.runs[run].status.RunFailed?)
  }

  lemma FinalizerDecides(s: System, u: UnitId, token: nat)
    requires VerdictOwed(s, u.run) && u in s.cells && Doing(s.cells[u], token, Finalizing)
    ensures Decided(Step(s, OnUnit(u, Finalize(token))), u.run)
  {
  }

  lemma {:induction false} VerdictNeedsAFinalizer(policy: Policy, past: seq<Event>, run: RunId)
    requires VerdictOwed(Run(Init(policy), past), run)
    ensures SomeoneFinalizes(Run(Init(policy), past), run) <==>
            exists future: seq<Event> :: CancelRun(run) !in future && Decided(Run(Run(Init(policy), past), future), run)
  {
    var s := Run(Init(policy), past);
    ReachableUnits(policy, past);
    if SomeoneFinalizes(s, run) {
      var u, token :| u in s.cells && u.run == run && Doing(s.cells[u], token, Finalizing);
      var future := [OnUnit(u, Finalize(token))];
      FinalizerDecides(s, u, token);
      assert future[..0] == [] && future[0] != CancelRun(run);
      assert Run(s, future) == Step(s, future[0]);
      assert CancelRun(run) !in future && Decided(Run(s, future), run);
    } else {
      forall future: seq<Event> | CancelRun(run) !in future ensures !Decided(Run(s, future), run) {
        StuckForever(s, future, run);
      }
    }
  }
}
