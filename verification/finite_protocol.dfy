/**
 The finite protocol as a step system (worker/finite.py over state/finite.py). Every event is one transaction
 or one worker-local action, so a sequence of events is an interleaving of any number of workers, planners,
 dispatchers and clients. A claim in progress is a task, named by its unit and by the claim token that fences it.
 */
module FiniteProtocol {
  import opened Wrappers
  import opened Retry
  import opened FiniteTables

  datatype ClaimKey = ClaimKey(unit: UnitId, token: nat)

  datatype HandlerResult = Returned(result: Option<Json>) | Raised(error: HandlerError)

  /** How far a worker got with one claim: each stage is left by exactly one more action. */
  datatype Stage =
    | Holding
    | Recording(outcome: Outcome, result: Option<Json>, error: Option<Json>, retryAt: Option<int>)
    | DeadLettering
    | Finalizing

  /** A claim in progress. A poll executes its claims one after the other: `ahead` are those that come before this one. */
  datatype Task = Task(spec: UnitSpec, attempt: nat, ahead: seq<ClaimKey>, stage: Stage)

  /**
   When a unit was claimed, how often the environment put it back while it was running, and until when a rate
   limit asked to wait, by the claim it ended.
   */
  datatype History = History(claimedAt: seq<int>, resets: nat, asked: map<nat, int>)

  /** Everything the protocol keeps about one unit: its plan row, its unit row, its history and its claims by token. */
  datatype Cell = Cell(spec: UnitSpec, row: UnitRow, history: History, tasks: map<nat, Task>)

  /** The tables, the claims in progress, and the claims whose worker carried them through to the end. */
  datatype System = System(
    now: int,
    policy: Policy,
    runs: map<RunId, RunRow>,
    cells: map<UnitId, Cell>,
    attempts: map<AttemptId, AttemptRow>,
    dispatch: set<DispatchKey>,
    finished: set<ClaimKey>)

  datatype Event =
    | Advance(elapsed: nat)
    | Submit(run: RunId, revision: RevisionId)
    | Plan(run: RunId, specs: seq<UnitSpec>)
    | CancelRun(run: RunId)
    | Enqueue(unit: UnitId)
    | OnUnit(unit: UnitId, action: Action)

  /** What happens to one unit; every action but the first and the last names the claim it is about. */
  datatype Action =
    | Claim(owner: InstanceId, ahead: seq<ClaimKey>)
    | Finish(token: nat, handler: HandlerResult)
    | Record(token: nat)
    | Bury(token: nat)
    | Finalize(token: nat)
    | Drop(token: nat)
    | PutBack

  function Init(policy: Policy): System {
    System(0, policy, map[], map[], map[], {}, {})
  }

  function FreshCell(spec: UnitSpec): Cell {
    Cell(spec, FreshUnit, History([], 0, map[]), map[])
  }

  /** `_record_failure` and the success path: what the worker will write, decided when the handler ends. */
  function Decide(now: int, policy: Policy, spec: UnitSpec, attempt: nat, h: HandlerResult): Stage {
    match h
    case Returned(result) => Recording(OutcomeSucceeded, result, None, None)
    case Raised(error) =>
      var o := ClassifyError(error, attempt, policy);
      if RetriesExhausted(spec.maxAttempts, attempt) && WillRetry(o.outcome)
      then Recording(OutcomePermanent, None, Some(o.error), None)
      else Recording(o.outcome, None, Some(o.error), if o.retryDelay.None? then None else Some(now + o.retryDelay.value))
  }

  function Asked(h: History, token: nat, now: int, r: HandlerResult): History {
    if r.Raised? && r.error.class_.RateLimitedError?
    then h.(asked := h.asked[token := now + r.error.class_.retryAfter]) else h
  }

  function AfterRecording(outcome: Outcome): Stage {
    if outcome.OutcomePermanent? then DeadLettering else Finalizing
  }

  /** An operator expires a claim and makes the unit ready again; the old holder keeps its token. */
  function PutBackRow(now: int, row: UnitRow): UnitRow {
    row.(status := Ready, claimExpiresAt := Some(now - 1))
  }

  predicate Doing(c: Cell, token: nat, stage: Stage) {
    token in c.tasks && c.tasks[token].stage == stage
  }

  predicate Writing(c: Cell, token: nat) {
    token in c.tasks && c.tasks[token].stage.Recording?
  }

  function Moved(c: Cell, token: nat, row: UnitRow, stage: Stage): Cell
    requires token in c.tasks
  {
    c.(row := row, tasks := c.tasks[token := c.tasks[token].(stage := stage)])
  }

  function Forgotten(c: Cell, token: nat): Cell {
    c.(tasks := c.tasks - {token})
  }

  function CellClaim(now: int, policy: Policy, c: Cell, owner: InstanceId, ahead: seq<ClaimKey>): Cell {
    if !RowDue(now, c.row) then c
    else
      var row := ClaimRow(c.row, now, owner, c.spec.timeout + policy.claimGrace);
      Cell(c.spec, row, c.history.(claimedAt := c.history.claimedAt + [now]),
           c.tasks[row.claimToken := Task(c.spec, row.attemptCount, ahead, Holding)])
  }

  /** A stale token raises out of the worker: it leaves its poll, and the claims behind this one never get their turn. */
  function CellRecord(c: Cell, token: nat): Cell
    requires Writing(c, token)
  {
    var w := c.tasks[token].stage;
    if c.row.claimToken != token then Forgotten(c, token)
    else Moved(c, token, CompleteRow(c.row, w.outcome, w.result, w.error, w.retryAt), AfterRecording(w.outcome))
  }

  function CellBury(c: Cell, token: nat): Cell
    requires token in c.tasks
  {
    if c.row.claimToken != token then Forgotten(c, token)
    else Moved(c, token, c.row.(status := DeadLettered), Finalizing)
  }

  function CellStep(now: int, policy: Policy, c: Cell, a: Action): Cell {
    match a
    case Claim(owner, ahead) => CellClaim(now, policy, c, owner, ahead)
    case Finish(token, h) =>
      if Doing(c, token, Holding)
      then Moved(c, token, c.row, Decide(now, policy, c.tasks[token].spec, c.tasks[token].attempt, h))
             .(history := Asked(c.history, token, now, h)) else c
    case Record(token) => if Writing(c, token) then CellRecord(c, token) else c
    case Bury(token) => if Doing(c, token, DeadLettering) then CellBury(c, token) else c
    case Finalize(token) => if Doing(c, token, Finalizing) then Forgotten(c, token) else c
    case Drop(token) => Forgotten(c, token)
    case PutBack =>
      if c.row.status.Running?
      then c.(row := PutBackRow(now, c.row), history := c.history.(resets := c.history.resets + 1)) else c
  }

  predicate Planned(s: System, run: RunId) {
    exists u :: u in s.cells && u.run == run
  }

  predicate Done(s: System, run: RunId) {
    forall u :: u in s.cells && u.run == run ==> Closed(s.cells[u].row.status)
  }

  predicate HasDead(s: System, run: RunId) {
    exists u :: u in s.cells && u.run == run && s.cells[u].row.status.DeadLettered?
  }

  function Finalized(s: System, run: RunId): map<RunId, RunRow> {
    if Done(s, run) && run in s.runs && s.runs[run].status.RunRunning?
    then s.runs[run := s.runs[run].(status := if HasDead(s, run) then RunFailed else RunSucceeded)]
    else s.runs
  }

  /** The attempts table after a completion: one row per attempt, kept by the first writer. */
  function Attempted(s: System, u: UnitId, c: Cell, token: nat): map<AttemptId, AttemptRow>
    requires Writing(c, token)
  {
    var id := AttemptId(u, c.tasks[token].attempt);
    if c.row.claimToken != token || id in s.attempts then s.attempts
    else s.attempts[id := AttemptRow(c.tasks[token].stage.outcome, c.tasks[token].stage.error)]
  }

  function PlanCells(cells: map<UnitId, Cell>, run: RunId, specs: seq<UnitSpec>): map<UnitId, Cell> {
    if specs == [] then cells
    else
      var last := specs[|specs| - 1];
      PlanCells(cells, run, specs[..|specs| - 1])[UnitId(run, last.key) := FreshCell(last)]
  }

  function FirstDispatches(run: RunId, specs: seq<UnitSpec>): set<DispatchKey> {
    set i | 0 <= i < |specs| :: FirstDispatch(UnitId(run, specs[i].key))
  }

  function StepPlan(s: System, run: RunId, specs: seq<UnitSpec>): System {
    if run !in s.runs || !DistinctKeys(specs) || Planned(s, run) then s
    else
      var row := s.runs[run];
      s.(cells := PlanCells(s.cells, run, specs),
         dispatch := s.dispatch + FirstDispatches(run, specs),
         runs := if row.status.RunPending? || row.status.RunPlanning? then s.runs[run := row.(status := RunRunning)] else s.runs)
  }

  /** A poll makes its claims in one transaction, so those ahead of a new one are as they were claimed. */
  predicate AsClaimed(s: System, k: ClaimKey) {
    && k.unit in s.cells && Doing(s.cells[k.unit], k.token, Holding)
    && k.token == s.cells[k.unit].row.claimToken && s.cells[k.unit].row.status.Running?
  }

  predicate Queues(s: System, ahead: seq<ClaimKey>) {
    && (forall i :: 0 <= i < |ahead| ==> AsClaimed(s, ahead[i]))
    && (ahead != [] ==>
        var last := ahead[|ahead| - 1];
        s.cells[last.unit].tasks[last.token].ahead == ahead[..|ahead| - 1])
  }

  predicate CarriedThrough(s: System, ks: seq<ClaimKey>) {
    forall i :: 0 <= i < |ks| ==> ks[i] in s.finished
  }

  /** The worker has carried every earlier claim of its poll through. */
  predicate HasTurn(s: System, t: Task) {
    CarriedThrough(s, t.ahead)
  }

  predicate Enabled(s: System, u: UnitId, a: Action)
    requires u in s.cells
  {
    match a
    case Claim(_, ahead) => Queues(s, ahead)
    case Finish(token, _) => token in s.cells[u].tasks ==> HasTurn(s, s.cells[u].tasks[token])
    case _ => true
  }

  function StepUnit(s: System, u: UnitId, a: Action): System
    requires u in s.cells && Enabled(s, u, a)
  {
    var c := s.cells[u];
    s.(cells := s.cells[u := CellStep(s.now, s.policy, c, a)],
       attempts := if a.Record? && Writing(c, a.token) then Attempted(s, u, c, a.token) else s.attempts,
       runs := if a.Finalize? && Doing(c, a.token, Finalizing) then Finalized(s, u.run) else s.runs,
       finished := if a.Finalize? && Doing(c, a.token, Finalizing) then s.finished + {ClaimKey(u, a.token)} else s.finished)
  }

  predicate WakeupDue(s: System, u: UnitId) {
    && u in s.cells && u.run in s.runs
    && var row := s.cells[u].row;
       row.status.RetryScheduled? && row.nextAttemptAt.Some? && row.nextAttemptAt.value <= s.now
  }

  function Step(s: System, e: Event): System {
    match e
    case Advance(elapsed) => s.(now := s.now + elapsed)
    case Submit(run, revision) => if run in s.runs then s else s.(runs := s.runs[run := RunRow(RunPending, revision)])
    case Plan(run, specs) => StepPlan(s, run, specs)
    case CancelRun(run) => if run in s.runs then s.(runs := s.runs[run := s.runs[run].(status := RunCancelled)]) else s
    case Enqueue(u) =>
      if WakeupDue(s, u) then s.(dispatch := s.dispatch + {RetryDispatch(u, s.cells[u].row.attemptCount)}) else s
    case OnUnit(u, a) => if u in s.cells && Enabled(s, u, a) then StepUnit(s, u, a) else s
  }

  function Run(s: System, es: seq<Event>): System {
    if es == [] then s else Step(Run(s, es[..|es| - 1]), es[|es| - 1])
  }
}
