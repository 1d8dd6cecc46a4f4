/**
 How a run loses its verdict, one history for each way: three crashes of one worker that holds one unit, and a poll of
 two units in which nobody crashes at all. Each history ends in a state from which no future without a cancellation, or
 without an operator, leads to a verdict.
 */
module FiniteTraces {
  import opened Wrappers
  import opened Retry
  import opened FiniteTables
  import opened FiniteProtocol
  import opened FiniteUnits
  import opened FiniteHistory
  import opened FinitePolls
  import opened FiniteRuns
  import opened FiniteBlocking

  // ---- one unit, one worker ----

  lemma InvStep(s: System, e: Event)
    requires Inv(s)
    ensures Inv(Step(s, e))
  {
    UnitInvStep(s, e);
    QueueStep(s, e);
  }

  /** One run with one unit, planned and claimed by one worker. */
  function ClaimedByOneWorker(policy: Policy, u: UnitId, spec: UnitSpec): System {
    var planned := Step(Step(Init(policy), Submit(u.run, "v1")), Plan(u.run, [spec]));
    Step(planned, OnUnit(u, Claim("instance:a", [])))
  }

  /** Its handler ended and the worker recorded the outcome. */
  function RecordedByOneWorker(policy: Policy, u: UnitId, spec: UnitSpec, h: HandlerResult): System {
    Step(Step(ClaimedByOneWorker(policy, u, spec), OnUnit(u, Finish(1, h))), OnUnit(u, Record(1)))
  }

  lemma PlannedAlone(policy: Policy, u: UnitId, spec: UnitSpec)
    requires spec.key == u.key
    ensures Step(Step(Init(policy), Submit(u.run, "v1")), Plan(u.run, [spec])) ==
            System(0, policy, map[u.run := RunRow(RunRunning, "v1")], map[u := FreshCell(spec)], map[], {FirstDispatch(u)}, {})
  {
    var s := Step(Init(policy), Submit(u.run, "v1"));
    assert s.runs == map[u.run := RunRow(RunPending, "v1")];
    assert [spec][..0] == [];
    assert PlanCells(s.cells, u.run, [spec]) == map[u := FreshCell(spec)];
    assert FirstDispatches(u.run, [spec]) == {FirstDispatch(u)} by {
      assert FirstDispatch(UnitId(u.run, [spec][0].key)) in FirstDispatches(u.run, [spec]);
    }
    assert s.runs[u.run := RunRow(RunRunning, "v1")] == map[u.run := RunRow(RunRunning, "v1")];
  }

  /** The run is running with this one unit. */
  ghost predicate Alone(s: System, u: UnitId, c: Cell) {
    s.cells == map[u := c] && Underway(s, u.run)
  }

  lemma AloneStep(s: System, u: UnitId, c: Cell, a: Action)
    requires Alone(s, u, c) && u in s.cells && Enabled(s, u, a) && !a.Finalize?
    ensures Alone(Step(s, OnUnit(u, a)), u, CellStep(s.now, s.policy, c, a))
    ensures Step(s, OnUnit(u, a)).now == s.now && Step(s, OnUnit(u, a)).policy == s.policy
  {
    assert map[u := c][u := CellStep(s.now, s.policy, c, a)] == map[u := CellStep(s.now, s.policy, c, a)];
    assert u in Step(s, OnUnit(u, a)).cells;
  }

  function ClaimedCell(policy: Policy, spec: UnitSpec): Cell {
    CellStep(0, policy, FreshCell(spec), Claim("instance:a", []))
  }

  lemma ClaimedAlone(policy: Policy, u: UnitId, spec: UnitSpec)
    requires spec.key == u.key
    ensures var s := ClaimedByOneWorker(policy, u, spec);
            Alone(s, u, ClaimedCell(policy, spec)) && s.now == 0 && s.policy == policy
    ensures ClaimedCell(policy, spec).tasks == map[1 := Task(spec, 1, [], Holding)]
  {
    PlannedAlone(policy, u, spec);
    var planned := Step(Step(Init(policy), Submit(u.run, "v1")), Plan(u.run, [spec]));
    assert u in planned.cells;
    AloneStep(planned, u, FreshCell(spec), Claim("instance:a", []));
  }

  /** The same actions as the unit alone sees them. */
  function RecordedCell(policy: Policy, spec: UnitSpec, h: HandlerResult): Cell {
    CellStep(0, policy, CellStep(0, policy, ClaimedCell(policy, spec), Finish(1, h)), Record(1))
  }

  lemma RecordedAlone(policy: Policy, u: UnitId, spec: UnitSpec, h: HandlerResult)
    requires spec.key == u.key
    ensures Alone(RecordedByOneWorker(policy, u, spec, h), u, RecordedCell(policy, spec, h))
    ensures var s := RecordedByOneWorker(policy, u, spec, h); s.now == 0 && s.policy == policy
  {
    var c := ClaimedCell(policy, spec);
    ClaimedAlone(policy, u, spec);
    AloneStep(ClaimedByOneWorker(policy, u, spec), u, c, Finish(1, h));
    AloneStep(Step(ClaimedByOneWorker(policy, u, spec), OnUnit(u, Finish(1, h))), u, CellStep(0, policy, c, Finish(1, h)), Record(1));
  }

  lemma OneWorkerInv(policy: Policy, u: UnitId, spec: UnitSpec, h: HandlerResult)
    ensures Inv(Step(ClaimedByOneWorker(policy, u, spec), OnUnit(u, Drop(1))))
    ensures Inv(Step(RecordedByOneWorker(policy, u, spec, h), OnUnit(u, Drop(1))))
  {
    var claimed := ClaimedByOneWorker(policy, u, spec);
    InvStep(Init(policy), Submit(u.run, "v1"));
    InvStep(Step(Init(policy), Submit(u.run, "v1")), Plan(u.run, [spec]));
    InvStep(Step(Step(Init(policy), Submit(u.run, "v1")), Plan(u.run, [spec])), OnUnit(u, Claim("instance:a", [])));
    InvStep(claimed, OnUnit(u, Drop(1)));
    InvStep(claimed, OnUnit(u, Finish(1, h)));
    InvStep(Step(claimed, OnUnit(u, Finish(1, h))), OnUnit(u, Record(1)));
    InvStep(RecordedByOneWorker(policy, u, spec, h), OnUnit(u, Drop(1)));
  }

  lemma RecordedRow(policy: Policy, spec: UnitSpec, h: HandlerResult)
    ensures var c := RecordedCell(policy, spec, h);
            && c.row.claimToken == 1 && c.tasks.Keys == {1}
            && (h.Returned? ==> c.row.status.Succeeded?)
            && (h.Raised? && h.error.class_.PermanentError? ==> c.row.status.Failed?)
  {
    assert ClaimedCell(policy, spec).tasks == map[1 := Task(spec, 1, [], Holding)];
  }

  /** The worker dies before its finalize transaction: the run is stuck in every future that does not cancel it. */
  lemma CrashCanStrandARun(policy: Policy, u: UnitId, spec: UnitSpec, result: Option<Json>, future: seq<Event>)
    requires spec.key == u.key && CancelRun(u.run) !in future
    ensures Stuck(Run(Step(RecordedByOneWorker(policy, u, spec, Returned(result)), OnUnit(u, Drop(1))), future), u.run)
  {
    var h := Returned(result);
    var s, c := RecordedByOneWorker(policy, u, spec, h), RecordedCell(policy, spec, h);
    RecordedAlone(policy, u, spec, h);
    RecordedRow(policy, spec, h);
    OneWorkerInv(policy, u, spec, h);
    AloneStep(s, u, c, Drop(1));
    assert u in s.cells && Forgotten(c, 1).tasks == map[];
    StuckForever(Step(s, OnUnit(u, Drop(1))), future, u.run);
  }

  /** The worker dies between recording a permanent failure and burying the unit, which then stays failed for good. */
  lemma CrashCanLeaveAUnitUnburied(policy: Policy, u: UnitId, spec: UnitSpec, document: string, future: seq<Event>)
    requires spec.key == u.key && CancelRun(u.run) !in future
    ensures var s := RecordedByOneWorker(policy, u, spec, Raised(HandlerError(PermanentError, document)));
            var t := Run(Step(s, OnUnit(u, Drop(1))), future);
            Underway(t, u.run) && u in t.cells && Unburied(t.cells[u])
  {
    var h := Raised(HandlerError(PermanentError, document));
    var s, c := RecordedByOneWorker(policy, u, spec, h), RecordedCell(policy, spec, h);
    RecordedAlone(policy, u, spec, h);
    RecordedRow(policy, spec, h);
    OneWorkerInv(policy, u, spec, h);
    AloneStep(s, u, c, Drop(1));
    BlockedForever(Step(s, OnUnit(u, Drop(1))), future, u, c.row, true);
  }

  /** The worker dies with the unit in its hands: the unit keeps running until an operator puts it back. */
  lemma CrashCanAbandonAUnit(policy: Policy, u: UnitId, spec: UnitSpec, future: seq<Event>)
    requires spec.key == u.key && Allowed(future, u.run, false)
    ensures var t := Run(Step(ClaimedByOneWorker(policy, u, spec), OnUnit(u, Drop(1))), future);
            Underway(t, u.run) && u in t.cells && Abandoned(t, u)
  {
    var s, c := ClaimedByOneWorker(policy, u, spec), ClaimedCell(policy, spec);
    ClaimedAlone(policy, u, spec);
    OneWorkerInv(policy, u, spec, Returned(None));
    AloneStep(s, u, c, Drop(1));
    BlockedForever(Step(s, OnUnit(u, Drop(1))), future, u, c.row, false);
  }

  // ---- two units, one poll ----

  /** One run with two units, which one poll of one worker claims in this order. */
  function PollOfTwo(policy: Policy, a: UnitId, sa: UnitSpec, b: UnitId, sb: UnitSpec): System {
    var planned := Step(Step(Init(policy), Submit(a.run, "v1")), Plan(a.run, [sa, sb]));
    Step(Step(planned, OnUnit(a, Claim("instance:a", []))), OnUnit(b, Claim("instance:a", [ClaimKey(a, 1)])))
  }

  /** The first unit is put back and claimed by another worker. */
  function ReclaimedPoll(policy: Policy, a: UnitId, sa: UnitSpec, b: UnitId, sb: UnitSpec): System {
    Step(Step(PollOfTwo(policy, a, sa, b, sb), OnUnit(a, PutBack)), OnUnit(a, Claim("instance:b", [])))
  }

  /** Then the handler of the poll ends, and its record is stale. */
  function DisturbedPoll(policy: Policy, a: UnitId, sa: UnitSpec, b: UnitId, sb: UnitSpec, h: HandlerResult): System {
    Step(Step(ReclaimedPoll(policy, a, sa, b, sb), OnUnit(a, Finish(1, h))), OnUnit(a, Record(1)))
  }

  ghost predicate Pair(s: System, policy: Policy, a: UnitId, c: Cell, b: UnitId, d: Cell) {
    && a != b && a.run == b.run && a in s.cells && b in s.cells && s.cells[a] == c && s.cells[b] == d
    && Underway(s, a.run) && s.now == 0 && s.policy == policy && s.finished == {}
  }

  lemma PairStep(s: System, policy: Policy, a: UnitId, c: Cell, b: UnitId, d: Cell, act: Action)
    requires Pair(s, policy, a, c, b, d) && Enabled(s, a, act) && !act.Finalize?
    ensures Pair(Step(s, OnUnit(a, act)), policy, a, CellStep(0, policy, c, act), b, d)
  {
    StepIsLocal(s, OnUnit(a, act));
  }

  lemma PlannedPair(policy: Policy, a: UnitId, sa: UnitSpec, b: UnitId, sb: UnitSpec)
    requires a.run == b.run && sa.key == a.key && sb.key == b.key && a != b
    ensures var planned := Step(Step(Init(policy), Submit(a.run, "v1")), Plan(a.run, [sa, sb]));
            Pair(planned, policy, a, FreshCell(sa), b, FreshCell(sb)) && Inv(planned)
  {
    var s := Step(Init(policy), Submit(a.run, "v1"));
    InvStep(Init(policy), Submit(a.run, "v1"));
    InvStep(s, Plan(a.run, [sa, sb]));
    assert [sa, sb][..1] == [sa] && [sa][..0] == [];
    assert PlanCells(s.cells, a.run, [sa]) == s.cells[a := FreshCell(sa)];
    assert PlanCells(s.cells, a.run, [sa, sb]) == s.cells[a := FreshCell(sa)][b := FreshCell(sb)];
    assert DistinctKeys([sa, sb]);
    assert a in Step(s, Plan(a.run, [sa, sb])).cells;
  }

  function BehindCell(policy: Policy, a: UnitId, sb: UnitSpec): Cell {
    CellStep(0, policy, FreshCell(sb), Claim("instance:a", [ClaimKey(a, 1)]))
  }

  lemma ClaimedPair(policy: Policy, a: UnitId, sa: UnitSpec, b: UnitId, sb: UnitSpec)
    requires a.run == b.run && sa.key == a.key && sb.key == b.key && a != b
    ensures Pair(PollOfTwo(policy, a, sa, b, sb), policy, a, ClaimedCell(policy, sa), b, BehindCell(policy, a, sb))
    ensures Inv(PollOfTwo(policy, a, sa, b, sb))
  {
    var planned := Step(Step(Init(policy), Submit(a.run, "v1")), Plan(a.run, [sa, sb]));
    PlannedPair(policy, a, sa, b, sb);
    PairStep(planned, policy, a, FreshCell(sa), b, FreshCell(sb), Claim("instance:a", []));
    InvStep(planned, OnUnit(a, Claim("instance:a", [])));
    var s, c := Step(planned, OnUnit(a, Claim("instance:a", []))), ClaimedCell(policy, sa);
    assert c.tasks == map[1 := Task(sa, 1, [], Holding)];
    assert AsClaimed(s, ClaimKey(a, 1)) && [ClaimKey(a, 1)][..0] == [];
    PairStep(s, policy, b, FreshCell(sb), a, c, Claim("instance:a", [ClaimKey(a, 1)]));
    InvStep(s, OnUnit(b, Claim("instance:a", [ClaimKey(a, 1)])));
  }

  function ReclaimedCell(policy: Policy, sa: UnitSpec): Cell {
    CellStep(0, policy, CellStep(0, policy, ClaimedCell(policy, sa), PutBack), Claim("instance:b", []))
  }

  lemma ReclaimedPair(policy: Policy, a: UnitId, sa: UnitSpec, b: UnitId, sb: UnitSpec)
    requires a.run == b.run && sa.key == a.key && sb.key == b.key && a != b
    ensures Pair(ReclaimedPoll(policy, a, sa, b, sb), policy, a, ReclaimedCell(policy, sa), b, BehindCell(policy, a, sb))
    ensures Inv(ReclaimedPoll(policy, a, sa, b, sb))
  {
    var s, c, d := PollOfTwo(policy, a, sa, b, sb), ClaimedCell(policy, sa), BehindCell(policy, a, sb);
    ClaimedPair(policy, a, sa, b, sb);
    InvStep(s, OnUnit(a, PutBack));
    InvStep(Step(s, OnUnit(a, PutBack)), OnUnit(a, Claim("instance:b", [])));
    PairStep(s, policy, a, c, b, d, PutBack);
    PairStep(Step(s, OnUnit(a, PutBack)), policy, a, CellStep(0, policy, c, PutBack), b, d, Claim("instance:b", []));
  }

  /** The first unit sees its claim superseded and then dismissed. */
  function DismissedCell(policy: Policy, sa: UnitSpec, h: HandlerResult): Cell {
    CellStep(0, policy, CellStep(0, policy, ReclaimedCell(policy, sa), Finish(1, h)), Record(1))
  }

  lemma DismissedRow(policy: Policy, sa: UnitSpec, h: HandlerResult)
    ensures 1 in ReclaimedCell(policy, sa).tasks && ReclaimedCell(policy, sa).tasks[1].ahead == []
    ensures 1 !in DismissedCell(policy, sa, h).tasks
  {
    assert ClaimedCell(policy, sa).tasks == map[1 := Task(sa, 1, [], Holding)];
  }

  lemma DisturbedPair(policy: Policy, a: UnitId, sa: UnitSpec, b: UnitId, sb: UnitSpec, h: HandlerResult)
    requires a.run == b.run && sa.key == a.key && sb.key == b.key && a != b
    ensures Pair(DisturbedPoll(policy, a, sa, b, sb, h), policy, a, DismissedCell(policy, sa, h), b, BehindCell(policy, a, sb))
    ensures Inv(DisturbedPoll(policy, a, sa, b, sb, h))
  {
    var s, c, d := ReclaimedPoll(policy, a, sa, b, sb), ReclaimedCell(policy, sa), BehindCell(policy, a, sb);
    ReclaimedPair(policy, a, sa, b, sb);
    DismissedRow(policy, sa, h);
    InvStep(s, OnUnit(a, Finish(1, h)));
    InvStep(Step(s, OnUnit(a, Finish(1, h))), OnUnit(a, Record(1)));
    PairStep(s, policy, a, c, b, d, Finish(1, h));
    PairStep(Step(s, OnUnit(a, Finish(1, h))), policy, a, CellStep(0, policy, c, Finish(1, h)), b, d, Record(1));
  }

  /**
   No worker dies at all, and still a verdict is lost: the stale record of the first claim raises out of the poll,
   its second unit is running under a live worker that never comes back to it, and so is the run, until an operator
   puts the unit back.
   */
  lemma StaleClaimStrandsThePoll(policy: Policy, a: UnitId, sa: UnitSpec, b: UnitId, sb: UnitSpec, h: HandlerResult, future: seq<Event>)
    requires a.run == b.run && sa.key == a.key && sb.key == b.key && a != b
    requires Allowed(future, b.run, false)
    ensures var s := DisturbedPoll(policy, a, sa, b, sb, h);
            var t := Run(s, future);
            && b in s.cells && Doing(s.cells[b], s.cells[b].row.claimToken, Holding)
            && Underway(t, b.run) && b in t.cells && Abandoned(t, b) && t.cells[b].row == s.cells[b].row
  {
    var s, d := DisturbedPoll(policy, a, sa, b, sb, h), BehindCell(policy, a, sb);
    DisturbedPair(policy, a, sa, b, sb, h);
    DismissedRow(policy, sa, h);
    assert d.tasks == map[1 := Task(sb, 1, [ClaimKey(a, 1)], Holding)];
    assert Lost(s, [ClaimKey(a, 1)][0]);
    BlockedForever(s, future, b, d.row, false);
  }
}
