/**
 Units that nobody will ever finish: exactly which events leave one behind, and what such a unit does to its run,
 with and without an operator who puts units back.
 */
module FiniteBlocking {
  import opened Wrappers
  import opened Retry
  import opened FiniteTables
  import opened FiniteProtocol
  import opened FiniteUnits
  import opened FiniteHistory
  import opened FinitePolls
  import opened FiniteRuns

  /** Failed, and the worker that failed it is gone: no claim takes the unit, and only its holder could bury it. */
  predicate Unburied(c: Cell) {
    c.row.status.Failed? && !Doing(c, c.row.claimToken, DeadLettering)
  }

  function CurrentClaim(s: System, u: UnitId): ClaimKey
    requires u in s.cells
  {
    ClaimKey(u, s.cells[u].row.claimToken)
  }

  /** The holder of the unit is still there and will get its turn: no earlier claim of its poll is lost. */
  ghost predicate Alive(s: System, u: UnitId)
    requires u in s.cells
  {
    var c, token := s.cells[u], s.cells[u].row.claimToken;
    Writing(c, token) || (Doing(c, token, Holding) && !LostAhead(s, c.tasks[token].ahead))
  }

  /** Running, and its worker is gone or will never take it up: only an operator can put the unit back. */
  ghost predicate Abandoned(s: System, u: UnitId)
    requires u in s.cells
  {
    s.cells[u].row.status.Running? && !Alive(s, u)
  }

  ghost predicate Blocked(s: System, u: UnitId, operator: bool)
    requires u in s.cells
  {
    Unburied(s.cells[u]) || (!operator && Abandoned(s, u))
  }

  ghost predicate SomeBlocked(s: System, run: RunId, operator: bool) {
    exists u :: u in s.cells && u.run == run && Blocked(s, u, operator)
  }

  /** Planned, running and without a verdict. */
  predicate Underway(s: System, run: RunId) {
    run in s.runs && s.runs[run].status.RunRunning? && Planned(s, run)
  }

  /** No unit of the run is blocked, and if all of them are closed somebody still has the finalize transaction to do. */
  ghost predicate CanFinish(s: System, run: RunId, operator: bool) {
    !SomeBlocked(s, run, operator) && (Done(s, run) ==> SomeoneFinalizes(s, run))
  }

  predicate Allows(e: Event, run: RunId, operator: bool) {
    e != CancelRun(run) && (e.OnUnit? && e.action.PutBack? ==> operator)
  }

  /** Nobody cancels the run, and nothing is put back unless there is an operator. */
  predicate Allowed(es: seq<Event>, run: RunId, operator: bool) {
    forall i :: 0 <= i < |es| ==> Allows(es[i], run, operator)
  }

  ghost predicate Inv(s: System) {
    UnitInv(s) && QueueInv(s)
  }

  lemma {:induction false} RunKeepsInv(s: System, es: seq<Event>)
    requires Inv(s)
    ensures Inv(Run(s, es))
  {
    RunKeepsUnits(s, es);
    RunKeepsQueues(s, es);
  }

  lemma ReachableInv(policy: Policy, es: seq<Event>)
    ensures Inv(Run(Init(policy), es))
  {
    RunKeepsInv(Init(policy), es);
  }

  // ---- a run that cannot finish never does ----

  /** Nobody but the worker whose turn never comes writes an abandoned unit; nobody at all writes an unburied one. */
  lemma BlockedRowStays(now: int, policy: Policy, c: Cell, a: Action)
    requires Fenced(c) && !c.row.status.Ready? && !c.row.status.RetryScheduled?
    requires !Writing(c, c.row.claimToken) && !Doing(c, c.row.claimToken, DeadLettering)
    requires a.PutBack? ==> !c.row.status.Running?
    ensures CellStep(now, policy, c, a).row == c.row
  {
  }

  lemma UnburiedStays(now: int, policy: Policy, c: Cell, a: Action)
    requires Fenced(c) && Unburied(c)
    ensures Unburied(CellStep(now, policy, c, a))
  {
    if a.Record? && a.token in c.tasks {
      assert TaskOk(c, a.token);
    }
  }

  /** A claim that is gone stays gone, and one that waits without its turn starts no write. */
  lemma NobodyWritesYet(now: int, policy: Policy, c: Cell, a: Action)
    requires Fenced(c) && c.row.status.Running? && !Writing(c, c.row.claimToken)
    requires Doing(c, c.row.claimToken, Holding) ==> !(a.Finish? && a.token == c.row.claimToken)
    ensures var d, token := CellStep(now, policy, c, a), c.row.claimToken;
            && d.row.claimToken == token && !Writing(d, token)
            && (Doing(d, token, Holding) ==> Doing(c, token, Holding) && d.tasks[token] == c.tasks[token])
  {
  }

  lemma AbandonedStays(s: System, e: Event, u: UnitId)
    requires Inv(s) && u in s.cells && Abandoned(s, u) && Allows(e, u.run, false)
    ensures u in Step(s, e).cells && Abandoned(Step(s, e), u) && Step(s, e).cells[u].row == s.cells[u].row
  {
    var c, token := s.cells[u], s.cells[u].row.claimToken;
    StepIsLocal(s, e);
    assert CellOk(s, u);
    if token in c.tasks {
      assert TaskOk(c, token);
    }
    if Doing(c, token, Holding) {
      LostAheadStays(s, e, c.tasks[token].ahead);
      assert !HasTurn(s, c.tasks[token]);
    }
    if Names(s, e, u) {
      NobodyWritesYet(s.now, s.policy, c, e.action);
      BlockedRowStays(s.now, s.policy, c, e.action);
    }
  }

  lemma BlockedUnitStays(s: System, e: Event, u: UnitId, operator: bool)
    requires Inv(s) && u in s.cells && Blocked(s, u, operator) && Allows(e, u.run, operator)
    ensures u in Step(s, e).cells && Blocked(Step(s, e), u, operator) && Step(s, e).cells[u].row == s.cells[u].row
  {
    StepIsLocal(s, e);
    assert CellOk(s, u);
    if !Unburied(s.cells[u]) {
      AbandonedStays(s, e, u);
    } else if Names(s, e, u) {
      UnburiedStays(s.now, s.policy, s.cells[u], e.action);
      if s.cells[u].row.claimToken in s.cells[u].tasks {
        assert TaskOk(s.cells[u], s.cells[u].row.claimToken);
      }
      BlockedRowStays(s.now, s.policy, s.cells[u], e.action);
    }
  }

  /** Only a cancellation ends a run that has an open unit. */
  lemma StaysUnderway(s: System, e: Event, run: RunId, u: UnitId)
    requires UnitInv(s) && Underway(s, run) && e != CancelRun(run)
    requires u in s.cells && u.run == run && !Closed(s.cells[u].row.status)
    ensures Underway(Step(s, e), run) && u in Step(s, e).cells
  {
    StepIsLocal(s, e);
    RunRowStep(s, e, run);
    assert !Done(s, run);
  }

  /** A blocked unit holds up its run, under this row. */
  ghost predicate HoldsUp(s: System, u: UnitId, row: UnitRow, operator: bool) {
    Underway(s, u.run) && u in s.cells && s.cells[u].row == row && Blocked(s, u, operator)
  }

  lemma HoldsUpStep(s: System, e: Event, u: UnitId, row: UnitRow, operator: bool)
    requires Inv(s) && HoldsUp(s, u, row, operator) && Allows(e, u.run, operator)
    ensures HoldsUp(Step(s, e), u, row, operator)
  {
    BlockedUnitStays(s, e, u, operator);
    StaysUnderway(s, e, u.run, u);
  }

  /** A blocked unit stays blocked and keeps its row, and so its run stays without a verdict. */
  lemma {:induction false} BlockedForever(s: System, es: seq<Event>, u: UnitId, row: UnitRow, operator: bool)
    requires Inv(s) && HoldsUp(s, u, row, operator) && Allowed(es, u.run, operator)
    ensures HoldsUp(Run(s, es), u, row, operator)
  {
    if es != [] {
      var n := |es| - 1;
      BlockedForever(s, es[..n], u, row, operator);
      RunKeepsInv(s, es[..n]);
      HoldsUpStep(Run(s, es[..n]), es[n], u, row, operator);
    }
  }

  ghost predicate Hopeless(s: System, run: RunId, operator: bool) {
    Underway(s, run) && !CanFinish(s, run, operator)
  }

  lemma HopelessForever(s: System, es: seq<Event>, run: RunId, operator: bool)
    requires Inv(s) && Hopeless(s, run, operator) && Allowed(es, run, operator)
    ensures Hopeless(Run(s, es), run, operator)
  {
    if SomeBlocked(s, run, operator) {
      var u :| u in s.cells && u.run == run && Blocked(s, u, operator);
      BlockedForever(s, es, u, s.cells[u].row, operator);
    } else {
      StuckForever(s, es, run);
    }
  }

  // ---- what blocks a unit ----

  predicate WaitsBehind(c: Cell, k: ClaimKey) {
    Doing(c, c.row.claimToken, Holding) && k in c.tasks[c.row.claimToken].ahead
  }

  /** A running unit whose holder will get its turn waits behind this claim. */
  ghost predicate WaitedFor(s: System, k: ClaimKey) {
    exists u :: u in s.cells && s.cells[u].row.status.Running? && Alive(s, u) && WaitsBehind(s.cells[u], k)
  }

  /** A worker dies between a permanent failure and its burial. */
  predicate DiesBeforeBurying(s: System, e: Event) {
    && e.OnUnit? && e.unit in s.cells && e.action.Drop?
    && e.action.token == s.cells[e.unit].row.claimToken && Doing(s.cells[e.unit], e.action.token, DeadLettering)
  }

  /** A worker dies with a unit in its hands that it would have carried through. */
  ghost predicate DiesHolding(s: System, e: Event) {
    && e.OnUnit? && e.unit in s.cells && e.action.Drop? && s.cells[e.unit].row.status.Running?
    && e.action.token == s.cells[e.unit].row.claimToken && Alive(s, e.unit)
  }

  /** The claim this event takes away from its worker, if it takes one away. */
  function Ended(s: System, e: Event): ClaimKey
    requires e.OnUnit? && e.unit in s.cells
  {
    if e.action.Drop? then ClaimKey(e.unit, e.action.token) else CurrentClaim(s, e.unit)
  }

  /** A claim ends before its worker carried it through, and a later claim of the same poll waits behind it. */
  ghost predicate CutsAPollShort(s: System, e: Event) {
    && e.OnUnit? && e.unit in s.cells && (e.action.Drop? || Supersedes(s, e, Ended(s, e)))
    && Ended(s, e) !in s.finished && WaitedFor(s, Ended(s, e))
  }

  ghost predicate BlocksAUnit(s: System, e: Event, operator: bool) {
    DiesBeforeBurying(s, e) || (!operator && (DiesHolding(s, e) || CutsAPollShort(s, e)))
  }

  /** In a queue without lost claims everybody who holds a unit will get its turn. */
  lemma QueuedIsAlive(s: System, ahead: seq<ClaimKey>, i: nat)
    requires QueueOk(s, ahead) && !LostAhead(s, ahead) && i < |ahead|
    requires InHand(s, ahead[i]) && Doing(s.cells[ahead[i].unit], ahead[i].token, Holding)
    ensures !LostAhead(s, s.cells[ahead[i].unit].tasks[ahead[i].token].ahead)
  {
    assert QueuedAt(s, ahead, i);
    forall j | 0 <= j < i ensures !Lost(s, ahead[..i][j]) {
      assert ahead[..i][j] == ahead[j];
    }
  }

  lemma SoundStages(c: Cell, token: nat)
    requires Sound(c, token)
    ensures Doing(c, token, Finalizing) ||
            (token == c.row.claimToken && (Writing(c, token) || Doing(c, token, Holding) || Doing(c, token, DeadLettering)))
  {
  }

  lemma NotFinished(s: System, k: ClaimKey)
    requires QueueInv(s) && InHand(s, k)
    ensures k !in s.finished
  {
  }

  /** The queue ahead of a live unit loses no claim unless its poll is cut short. */
  lemma QueueLives(s: System, e: Event, v: UnitId)
    requires Inv(s) && v in s.cells && s.cells[v].row.status.Running? && Alive(s, v)
    requires Doing(s.cells[v], s.cells[v].row.claimToken, Holding) && !CutsAPollShort(s, e)
    ensures !LostAhead(Step(s, e), s.cells[v].tasks[s.cells[v].row.claimToken].ahead)
  {
    var ahead := s.cells[v].tasks[s.cells[v].row.claimToken].ahead;
    assert QueueOk(s, ahead);
    forall i | 0 <= i < |ahead| ensures !Lost(Step(s, e), ahead[i]) {
      if Lost(Step(s, e), ahead[i]) {
        assert QueuedAt(s, ahead, i) && !Lost(s, ahead[i]);
        NewlyLost(s, e, ahead[i]);
        assert WaitsBehind(s.cells[v], ahead[i]);
        NotFinished(s, ahead[i]);
        assert false;
      }
    }
  }

  lemma BuriersStay(now: int, policy: Policy, c: Cell, a: Action)
    requires Fenced(c) && !Unburied(c)
    requires !(a == Drop(c.row.claimToken) && Doing(c, c.row.claimToken, DeadLettering))
    ensures !Unburied(CellStep(now, policy, c, a))
  {
    if (a.Bury? || a.Record? || a.Finish?) && a.token in c.tasks {
      assert TaskOk(c, a.token);
    }
  }

  /** Who holds a running unit after an action: who held it before, now perhaps about to write, or who just claimed it. */
  lemma HoldersStay(now: int, policy: Policy, c: Cell, a: Action)
    requires Fenced(c) && a != Drop(c.row.claimToken)
    requires c.row.status.Running? ==> Writing(c, c.row.claimToken) || Doing(c, c.row.claimToken, Holding)
    ensures var d := CellStep(now, policy, c, a);
            var token := d.row.claimToken;
            d.row.status.Running? ==>
              || Writing(d, token)
              || (Doing(d, token, Holding) && a.Claim? && RowDue(now, c.row) && d.tasks[token].ahead == a.ahead)
              || (Doing(d, token, Holding) && c.row.status.Running? && token == c.row.claimToken && d.tasks[token] == c.tasks[token])
  {
    if (a.Bury? || a.Record? || a.Finish? || a.Finalize?) && a.token in c.tasks {
      assert TaskOk(c, a.token);
    }
  }

  /** The claims a new one joins are as they were claimed, so none of them is lost by its claim. */
  lemma JoinedQueueLives(s: System, v: UnitId, owner: InstanceId, ahead: seq<ClaimKey>)
    requires UnitInv(s) && v in s.cells && Queues(s, ahead) && Claimable(s.cells[v].row.status)
    ensures !LostAhead(Step(s, OnUnit(v, Claim(owner, ahead))), ahead)
  {
    var e := OnUnit(v, Claim(owner, ahead));
    StepIsLocal(s, e);
    forall i | 0 <= i < |ahead| ensures !Lost(Step(s, e), ahead[i]) {
      assert AsClaimed(s, ahead[i]);
    }
  }

  lemma NotAbandonedStays(s: System, e: Event, v: UnitId)
    requires Inv(s) && v in s.cells && !Abandoned(s, v) && !BlocksAUnit(s, e, false)
    ensures v in Step(s, e).cells && !Abandoned(Step(s, e), v)
  {
    var c, token := s.cells[v], s.cells[v].row.claimToken;
    StepIsLocal(s, e);
    assert CellOk(s, v);
    if c.row.status.Running? && Doing(c, token, Holding) {
      QueueLives(s, e, v);
    }
    if Names(s, e, v) && e.action != Drop(token) {
      HoldersStay(s.now, s.policy, c, e.action);
      if e.action.Claim? && RowDue(s.now, c.row) {
        JoinedQueueLives(s, v, e.action.owner, e.action.ahead);
      }
    }
  }

  lemma UnblockedStays(s: System, e: Event, v: UnitId, operator: bool)
    requires Inv(s) && v in s.cells && !Blocked(s, v, operator) && !BlocksAUnit(s, e, operator)
    ensures v in Step(s, e).cells && !Blocked(Step(s, e), v, operator)
  {
    StepIsLocal(s, e);
    assert CellOk(s, v);
    if Names(s, e, v) {
      BuriersStay(s.now, s.policy, s.cells[v], e.action);
    }
    if !operator {
      NotAbandonedStays(s, e, v);
    }
  }

  /** Some unit that was not blocked is blocked after this event. */
  ghost predicate NewlyBlocks(s: System, e: Event, operator: bool) {
    exists v :: v in s.cells && !Blocked(s, v, operator) && v in Step(s, e).cells && Blocked(Step(s, e), v, operator)
  }

  lemma DeadHolder(now: int, policy: Policy, c: Cell, token: nat)
    requires token == c.row.claimToken && (Doing(c, token, DeadLettering) ==> c.row.status.Failed?)
    ensures var d := CellStep(now, policy, c, Drop(token));
            && d.row == c.row && !Doing(d, token, Holding) && !Writing(d, token)
            && (Doing(c, token, DeadLettering) ==> !Unburied(c) && Unburied(d))
  {
  }

  lemma DeathBlocks(s: System, e: Event, operator: bool)
    requires Inv(s) && (DiesBeforeBurying(s, e) || (!operator && DiesHolding(s, e)))
    ensures NewlyBlocks(s, e, operator)
  {
    var u, token := e.unit, e.action.token;
    StepIsLocal(s, e);
    assert CellOk(s, u) && TaskOk(s.cells[u], token);
    DeadHolder(s.now, s.policy, s.cells[u], token);
    assert !Blocked(s, u, operator) && Blocked(Step(s, e), u, operator);
  }

  lemma EndedIsLost(s: System, e: Event)
    requires e.OnUnit? && e.unit in s.cells && (e.action.Drop? || Supersedes(s, e, Ended(s, e)))
    requires Ended(s, e) !in s.finished
    ensures Lost(Step(s, e), Ended(s, e))
  {
    StepIsLocal(s, e);
  }

  lemma OthersWaitOn(now: int, policy: Policy, c: Cell, a: Action, k: ClaimKey)
    requires c.row.status.Running? && WaitsBehind(c, k)
    requires a.Claim? || (a.Drop? && a.token != c.row.claimToken)
    ensures CellStep(now, policy, c, a).row == c.row && WaitsBehind(CellStep(now, policy, c, a), k)
  {
  }

  /** What ends a claim leaves the holder of a running unit behind it where it was. */
  lemma WaiterWaitsOn(s: System, e: Event, v: UnitId)
    requires Inv(s) && e.OnUnit? && e.unit in s.cells && (e.action.Drop? || Supersedes(s, e, Ended(s, e)))
    requires v in s.cells && s.cells[v].row.status.Running? && WaitsBehind(s.cells[v], Ended(s, e))
    ensures v in Step(s, e).cells && Step(s, e).cells[v].row == s.cells[v].row
    ensures WaitsBehind(Step(s, e).cells[v], Ended(s, e))
  {
    StepIsLocal(s, e);
    NotAheadOfItself(s, CurrentClaim(s, v));
    if Names(s, e, v) {
      OthersWaitOn(s.now, s.policy, s.cells[v], e.action, Ended(s, e));
    }
  }

  /** Whoever waits behind a lost claim waits for ever. */
  lemma WaitingBehindALostClaim(t: System, v: UnitId, k: ClaimKey)
    requires v in t.cells && t.cells[v].row.status.Running? && WaitsBehind(t.cells[v], k) && Lost(t, k)
    ensures Abandoned(t, v)
  {
    var ahead := t.cells[v].tasks[t.cells[v].row.claimToken].ahead;
    var i :| 0 <= i < |ahead| && ahead[i] == k;
    assert LostAhead(t, ahead);
  }

  lemma CutPollBlocks(s: System, e: Event)
    requires Inv(s) && CutsAPollShort(s, e)
    ensures NewlyBlocks(s, e, false)
  {
    var k := Ended(s, e);
    var v :| v in s.cells && s.cells[v].row.status.Running? && Alive(s, v) && WaitsBehind(s.cells[v], k);
    WaiterWaitsOn(s, e, v);
    EndedIsLost(s, e);
    WaitingBehindALostClaim(Step(s, e), v, k);
    assert !Blocked(s, v, false) && Blocked(Step(s, e), v, false);
  }

  /**
   Exactly what blocks a unit: a worker dies between a permanent failure and its burial, or, where no operator puts
   units back, it dies with a running unit it would have carried through, or a claim ends before it was carried
   through (its worker dies, or the unit is claimed again) while a running unit of the same poll waits behind it.
   */
  lemma {:induction false} UnitsAreBlockedBy(policy: Policy, past: seq<Event>, e: Event, operator: bool)
    ensures NewlyBlocks(Run(Init(policy), past), e, operator) <==> BlocksAUnit(Run(Init(policy), past), e, operator)
  {
    var s := Run(Init(policy), past);
    ReachableInv(policy, past);
    if BlocksAUnit(s, e, operator) {
      if DiesBeforeBurying(s, e) || DiesHolding(s, e) {
        DeathBlocks(s, e, operator);
      } else {
        CutPollBlocks(s, e);
      }
    } else {
      forall v | v in s.cells && !Blocked(s, v, operator) ensures v in Step(s, e).cells && !Blocked(Step(s, e), v, operator) {
        UnblockedStays(s, e, v, operator);
      }
    }
  }
}
