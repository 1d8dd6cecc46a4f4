/**
 The finite tables (state/finite.py, control/planner.py, control/dispatcher.py): runs, plans, units, attempts
 and dispatch intents, and one function per transaction over them.
 */
module FiniteTables {
  import opened Wrappers
  import opened Retry
  import Text

  type RunId = string
  type InstanceId = string
  type RevisionId = string
  type Json = string

  datatype RunStatus = RunPending | RunPlanning | RunRunning | RunSucceeded | RunFailed | RunCancelled

  datatype UnitStatus =
    UnitPending | Ready | Running | RetryScheduled | Succeeded | Failed | DeadLettered | Cancelled

  datatype UnitId = UnitId(run: RunId, key: string)

  /** The stored fields of an ExecutionUnit that the protocol reads. */
  datatype UnitSpecData = UnitSpec(key: string, payload: Json, timeout: int, maxAttempts: int)

  /** The bounds the ExecutionUnit constructor enforces. */
  type UnitSpec = s: UnitSpecData | 1 <= s.timeout <= 3600 && s.maxAttempts >= 1 witness UnitSpec("u", "", 300, 5)

  datatype RunRow = RunRow(status: RunStatus, executionRevision: RevisionId)

  datatype UnitRow = UnitRow(
    status: UnitStatus,
    attemptCount: nat,
    nextAttemptAt: Option<int>,
    claimedBy: Option<InstanceId>,
    claimExpiresAt: Option<int>,
    claimToken: nat,
    result: Option<Json>,
    lastError: Option<Json>)

  datatype AttemptId = AttemptId(unit: UnitId, attempt: nat)

  datatype AttemptRow = AttemptRow(outcome: Outcome, error: Option<Json>)

  /** The dedup key of a unit_dispatch outbox row: the planner's first wakeup or the retry after `attempt`. */
  datatype DispatchKey = FirstDispatch(unit: UnitId) | RetryDispatch(unit: UnitId, attempt: nat)

  datatype Db = Db(
    runs: map<RunId, RunRow>,
    plan: map<UnitId, UnitSpec>,
    units: map<UnitId, UnitRow>,
    attempts: map<AttemptId, AttemptRow>,
    dispatch: set<DispatchKey>)

  /** A unit whose claim the caller owns while `token` is the row's claim token. */
  datatype ClaimedUnit = ClaimedUnit(unit: UnitId, spec: UnitSpec, attempt: nat, token: nat, expiresAt: int)

  datatype StoreError = UnknownRun | StaleClaim | PlanConflict | DuplicateUnitKey | RunNotPlannable | UnreadableResult

  const EmptyDb := Db(map[], map[], map[], map[], {})

  const FreshUnit := UnitRow(Ready, 0, None, None, None, 0, None, None)

  function Coalesce<T>(a: Option<T>, b: Option<T>): Option<T> {
    if a.Some? then a else b
  }

  // ---- runs ----

  function SubmitRun(db: Db, run: RunId, revision: RevisionId): Db {
    if run in db.runs then db else db.(runs := db.runs[run := RunRow(RunPending, revision)])
  }

  /** An unguarded status write: any status may follow any other. */
  function TransitionRun(db: Db, run: RunId, status: RunStatus): Result<Db, StoreError> {
    if run !in db.runs then Failure(UnknownRun)
    else Success(db.(runs := db.runs[run := db.runs[run].(status := status)]))
  }

  // ---- plans ----

  predicate DistinctKeys(specs: seq<UnitSpec>) {
    forall i, j :: 0 <= i < j < |specs| ==> specs[i].key != specs[j].key
  }

  predicate HasPlan(db: Db, run: RunId) {
    exists u :: u in db.plan && u.run == run
  }

  /** Rows one planned unit adds: its plan row, its unit row unless there is one, its dispatch intent. */
  function PersistUnit(db: Db, run: RunId, spec: UnitSpec): Db {
    var u := UnitId(run, spec.key);
    db.(plan := db.plan[u := spec],
        units := if u in db.units then db.units else db.units[u := FreshUnit],
        dispatch := db.dispatch + {FirstDispatch(u)})
  }

  function PersistUnits(db: Db, run: RunId, specs: seq<UnitSpec>): Db {
    if specs == [] then db else PersistUnit(PersistUnits(db, run, specs[..|specs| - 1]), run, specs[|specs| - 1])
  }

  /**
   PlannerRunner.plan: validate, then one transaction for the plan, the units, the dispatch intents and the
   run status. A stored plan either differs (drift) or collides with its own rows; both roll back. The last
   error is raised after the transaction committed, so its rows stay.
   */
  function PlanRun(db: Db, run: RunId, specs: seq<UnitSpec>): (Db, Option<StoreError>) {
    if run !in db.runs then (db, Some(UnknownRun))
    else if !DistinctKeys(specs) then (db, Some(DuplicateUnitKey))
    else if HasPlan(db, run) then (db, Some(PlanConflict))
    else
      var d := PersistUnits(db, run, specs);
      if db.runs[run].status.RunPending? || db.runs[run].status.RunPlanning?
      then (d.(runs := d.runs[run := db.runs[run].(status := RunRunning)]), None)
      else (d, Some(RunNotPlannable))
  }

  // ---- claims ----

  predicate Claimable(s: UnitStatus) {
    s.Ready? || s.RetryScheduled?
  }

  predicate RowDue(now: int, row: UnitRow) {
    && Claimable(row.status)
    && (row.nextAttemptAt.None? || row.nextAttemptAt.value <= now)
    && (row.claimExpiresAt.None? || row.claimExpiresAt.value < now)
  }

  predicate Due(db: Db, now: int, u: UnitId) {
    u in db.units && u in db.plan && RowDue(now, db.units[u])
  }

  function ClaimRow(row: UnitRow, now: int, owner: InstanceId, ttl: int): UnitRow {
    row.(status := Running, claimedBy := Some(owner), claimToken := row.claimToken + 1,
         claimExpiresAt := Some(now + ttl), attemptCount := row.attemptCount + 1, nextAttemptAt := None)
  }

  function ClaimUnit(db: Db, now: int, owner: InstanceId, u: UnitId, grace: int): (Db, Option<ClaimedUnit>) {
    if !Due(db, now, u) then (db, None)
    else
      var spec := db.plan[u];
      var row := ClaimRow(db.units[u], now, owner, spec.timeout + grace);
      (db.(units := db.units[u := row]),
       Some(ClaimedUnit(u, spec, row.attemptCount, row.claimToken, now + spec.timeout + grace)))
  }

  function ClaimAll(db: Db, now: int, owner: InstanceId, us: seq<UnitId>, grace: int): Db {
    if us == [] then db
    else ClaimUnit(ClaimAll(db, now, owner, us[..|us| - 1], grace), now, owner, us[|us| - 1], grace).0
  }

  /** The poll path only sees runs pinned to the pool's own revision, when one is given. */
  predicate DueFor(db: Db, now: int, revision: Option<RevisionId>, u: UnitId) {
    && Due(db, now, u)
    && u.run in db.runs
    && (revision.None? || db.runs[u.run].executionRevision == revision.value)
  }

  /** ORDER BY next_attempt_at NULLS FIRST, unit_key. */
  predicate PolledBefore(db: Db, a: UnitId, b: UnitId) {
    && a in db.units && b in db.units
    && var s, t := db.units[a].nextAttemptAt, db.units[b].nextAttemptAt;
       if s == t then Text.Precedes(a.key, b.key)
       else s.None? || (t.Some? && s.value < t.value)
  }

  /** What a poll may claim: distinct due units, as many as the limit allows, none after a due unit left behind. */
  ghost predicate PollSelection(db: Db, now: int, revision: Option<RevisionId>, limit: nat, us: seq<UnitId>) {
    && (forall i, j :: 0 <= i < j < |us| ==> us[i] != us[j])
    && (forall u :: u in us ==> DueFor(db, now, revision, u))
    && |us| <= limit
    && (forall v :: DueFor(db, now, revision, v) && v !in us ==>
        |us| == limit && forall u :: u in us ==> !PolledBefore(db, v, u))
  }

  /** The units of some claims, in claim order. */
  function Units(claimed: seq<ClaimedUnit>): (us: seq<UnitId>)
    ensures |us| == |claimed| && forall i :: 0 <= i < |us| ==> us[i] == claimed[i].unit
  {
    if claimed == [] then [] else Units(claimed[..|claimed| - 1]) + [claimed[|claimed| - 1].unit]
  }

  /** The claims a poll hands out are exactly those the transaction granted. */
  ghost predicate GrantedBy(db: Db, now: int, owner: InstanceId, grace: int, claimed: seq<ClaimedUnit>) {
    forall c :: c in claimed ==> ClaimUnit(db, now, owner, c.unit, grace).1 == Some(c)
  }

  // ---- outcomes ----

  function FinalStatus(outcome: Outcome): UnitStatus {
    match outcome
    case OutcomeSucceeded => Succeeded
    case OutcomePermanent => Failed
    case OutcomeRetryable => RetryScheduled
    case OutcomeRateLimited => RetryScheduled
    case OutcomeCancelled => Cancelled
  }

  predicate HoldsToken(db: Db, u: UnitId, token: nat) {
    u in db.units && db.units[u].claimToken == token
  }

  function CompleteRow(row: UnitRow, outcome: Outcome, result: Option<Json>, error: Option<Json>, retryAt: Option<int>)
    : UnitRow
  {
    row.(status := FinalStatus(outcome), result := Coalesce(result, row.result),
         lastError := Coalesce(error, row.lastError), nextAttemptAt := retryAt,
         claimedBy := None, claimExpiresAt := None)
  }

  /** Fenced by the claim token; a stale token rolls the attempt row back too. */
  function CompleteAttempt(db: Db, u: UnitId, token: nat, attempt: nat, outcome: Outcome, result: Option<Json>,
                           error: Option<Json>, retryAt: Option<int>): Result<Db, StoreError>
  {
    if !HoldsToken(db, u, token) then Failure(StaleClaim)
    else
      var id := AttemptId(u, attempt);
      Success(db.(
        attempts := if id in db.attempts then db.attempts else db.attempts[id := AttemptRow(outcome, error)],
        units := db.units[u := CompleteRow(db.units[u], outcome, result, error, retryAt)]))
  }

  function DeadLetter(db: Db, u: UnitId, token: nat): Result<Db, StoreError> {
    if !HoldsToken(db, u, token) then Failure(StaleClaim)
    else Success(db.(units := db.units[u := db.units[u].(status := DeadLettered)]))
  }

  // ---- verdicts ----

  /** The states finalize counts as done; `failed` is not one of them. */
  predicate Closed(s: UnitStatus) {
    s.Succeeded? || s.DeadLettered? || s.Cancelled?
  }

  predicate AllClosed(db: Db, run: RunId) {
    forall u :: u in db.units && u.run == run ==> Closed(db.units[u].status)
  }

  predicate AnyDead(db: Db, run: RunId) {
    exists u :: u in db.units && u.run == run && db.units[u].status.DeadLettered?
  }

  function FinalizeRun(db: Db, run: RunId): Db {
    if AllClosed(db, run) && run in db.runs && db.runs[run].status.RunRunning?
    then db.(runs := db.runs[run := db.runs[run].(status := if AnyDead(db, run) then RunFailed else RunSucceeded)])
    else db
  }

  // ---- results ----

  /** WHERE status = 'succeeded' ORDER BY unit_key, within one run. */
  ghost predicate SucceededInOrder(db: Db, run: RunId, us: seq<UnitId>) {
    && (forall i, j :: 0 <= i < j < |us| ==> us[i] != us[j] && Text.Precedes(us[i].key, us[j].key))
    && (forall u :: u in us <==> u in db.units && u.run == run && db.units[u].status.Succeeded?)
  }

  /** The stored results of these units; a result that was never stored cannot be read as JSON. */
  function ReadResults(db: Db, us: seq<UnitId>): Result<seq<Json>, StoreError>
    requires forall u :: u in us ==> u in db.units
  {
    if us == [] then Success([])
    else
      var earlier, last := ReadResults(db, us[..|us| - 1]), db.units[us[|us| - 1]].result;
      if earlier.Failure? || last.None? then Failure(UnreadableResult) else Success(earlier.value + [last.value])
  }

  // ---- dispatcher ----

  predicate RetryDue(db: Db, now: int, u: UnitId) {
    && u in db.units && u in db.plan && u.run in db.runs
    && db.units[u].status.RetryScheduled?
    && db.units[u].nextAttemptAt.Some? && db.units[u].nextAttemptAt.value <= now
  }

  function EnqueueRetry(db: Db, now: int, u: UnitId): Db {
    if RetryDue(db, now, u) then db.(dispatch := db.dispatch + {RetryDispatch(u, db.units[u].attemptCount)}) else db
  }
}
