/**
 The finite repository object (state/finite.py, control/planner.py). Each method is one transaction, tied to the
 function of the same name over the table values: its loops over units, claims and plan rows are shown to do what
 that function says, and its errors to leave behind what that function leaves.
 */
module FiniteStore {
  import opened Wrappers
  import opened Retry
  import opened FiniteTables

  /** The polling order is strict and transitive, so a first unit exists. */
  lemma {:induction false} PollingIsAnOrder(db: Db, a: UnitId, b: UnitId, c: UnitId)
    ensures PolledBefore(db, a, b) && PolledBefore(db, b, c) ==> PolledBefore(db, a, c)
    ensures a == b ==> !PolledBefore(db, a, b)
  {
    if Text.Precedes(a.key, b.key) && Text.Precedes(b.key, c.key) {
      Text.PrecedesIsTransitive(a.key, b.key, c.key);
    }
    Text.PrecedesIsTotal(a.key, b.key);
  }

  /** Claiming some units leaves every other row, and what is due among them, as it was. */
  lemma {:induction false} ClaimAllFrame(db: Db, now: int, owner: InstanceId, us: seq<UnitId>, grace: int)
    ensures var d := ClaimAll(db, now, owner, us, grace);
            && d.runs == db.runs && d.plan == db.plan && d.attempts == db.attempts && d.dispatch == db.dispatch
            && d.units.Keys == db.units.Keys
            && forall v :: v in db.units && v !in us ==> d.units[v] == db.units[v]
  {
    if us != [] {
      ClaimAllFrame(db, now, owner, us[..|us| - 1], grace);
    }
  }

  /** Progress of a poll: the units taken so far and the due units still waiting. */
  ghost predicate Polling(db: Db, now: int, revision: Option<RevisionId>, us: seq<UnitId>, waiting: set<UnitId>) {
    && (forall i, j :: 0 <= i < j < |us| ==> us[i] != us[j])
    && (forall u :: u in us ==> DueFor(db, now, revision, u))
    && (forall v :: DueFor(db, now, revision, v) <==> v in waiting || v in us)
    && (forall v :: v in waiting ==> v !in us)
    && (forall v, u :: v in waiting && u in us ==> !PolledBefore(db, v, u))
  }

  /** Taking a unit no waiting one is ordered before keeps the poll on course. */
  lemma PollNext(start: Db, now: int, us: seq<UnitId>, revision: Option<RevisionId>, waiting: set<UnitId>, u: UnitId)
    requires Polling(start, now, revision, us, waiting)
    requires u in waiting && forall v :: v in waiting ==> !PolledBefore(start, v, u)
    ensures Polling(start, now, revision, us + [u], waiting - {u})
  {
  }

  /** What is claimed already changes neither the order nor the grants of what still waits. */
  lemma WaitingIsAsBefore(start: Db, now: int, owner: InstanceId, us: seq<UnitId>, grace: int, revision: Option<RevisionId>,
                          waiting: set<UnitId>, u: UnitId, v: UnitId)
    requires Polling(start, now, revision, us, waiting) && u in waiting && v in waiting
    ensures var db := ClaimAll(start, now, owner, us, grace);
            && (PolledBefore(db, v, u) <==> PolledBefore(start, v, u)) && Due(db, now, u)
            && ClaimUnit(db, now, owner, u, grace).1 == ClaimUnit(start, now, owner, u, grace).1
  {
    ClaimAllFrame(start, now, owner, us, grace);
    assert DueFor(start, now, revision, u) && DueFor(start, now, revision, v);
  }

  lemma PollOne(start: Db, now: int, owner: InstanceId, us: seq<UnitId>, grace: int, revision: Option<RevisionId>,
                waiting: set<UnitId>, u: UnitId)
    requires Polling(start, now, revision, us, waiting)
    requires var db := ClaimAll(start, now, owner, us, grace);
             u in waiting && forall v :: v in waiting ==> !PolledBefore(db, v, u)
    ensures Polling(start, now, revision, us + [u], waiting - {u})
    ensures var db := ClaimAll(start, now, owner, us, grace);
            ClaimUnit(db, now, owner, u, grace).1 == ClaimUnit(start, now, owner, u, grace).1 && Due(db, now, u)
  {
    WaitingIsAsBefore(start, now, owner, us, grace, revision, waiting, u, u);
    forall v | v in waiting ensures !PolledBefore(start, v, u) {
      WaitingIsAsBefore(start, now, owner, us, grace, revision, waiting, u, v);
    }
    PollNext(start, now, us, revision, waiting, u);
  }

  lemma ClaimAllOneMore(start: Db, now: int, owner: InstanceId, us: seq<UnitId>, grace: int, u: UnitId)
    ensures ClaimAll(start, now, owner, us + [u], grace) == ClaimUnit(ClaimAll(start, now, owner, us, grace), now, owner, u, grace).0
  {
    assert (us + [u])[..|us|] == us;
  }

  /** A poll in progress: what was claimed so far, and that the rest of the due units still waits. */
  ghost predicate Claiming(start: Db, db: Db, now: int, owner: InstanceId, grace: int, revision: Option<RevisionId>,
                           claimed: seq<ClaimedUnit>, waiting: set<UnitId>) {
    && db == ClaimAll(start, now, owner, Units(claimed), grace)
    && Polling(start, now, revision, Units(claimed), waiting)
    && GrantedBy(start, now, owner, grace, claimed)
  }

  lemma ClaimOneMore(start: Db, db: Db, now: int, owner: InstanceId, grace: int, revision: Option<RevisionId>,
                     claimed: seq<ClaimedUnit>, waiting: set<UnitId>, u: UnitId)
    requires Claiming(start, db, now, owner, grace, revision, claimed, waiting)
    requires u in waiting && forall v :: v in waiting ==> !PolledBefore(db, v, u)
    ensures var (d, c) := ClaimUnit(db, now, owner, u, grace);
            c.Some? && Claiming(start, d, now, owner, grace, revision, claimed + [c.value], waiting - {u})
  {
    var (d, c) := ClaimUnit(db, now, owner, u, grace);
    PollOne(start, now, owner, Units(claimed), grace, revision, waiting, u);
    ClaimAllOneMore(start, now, owner, Units(claimed), grace, u);
    assert (claimed + [c.value])[..|claimed|] == claimed;
  }

  lemma WaitingHasRows(start: Db, db: Db, now: int, owner: InstanceId, grace: int, revision: Option<RevisionId>,
                       claimed: seq<ClaimedUnit>, waiting: set<UnitId>)
    requires Claiming(start, db, now, owner, grace, revision, claimed, waiting)
    ensures waiting <= db.units.Keys
  {
    ClaimAllFrame(start, now, owner, Units(claimed), grace);
  }

  /** What a stored plan leaves of one unit: its plan row, a fresh row unless there was one, and its first wakeup. */
  predicate UnitPersisted(db: Db, d: Db, run: RunId, spec: UnitSpec) {
    var u := UnitId(run, spec.key);
    && u in d.plan && d.plan[u] == spec
    && u in d.units && d.units[u] == (if u in db.units then db.units[u] else UnitRow(Ready, 0, None, None, None, 0, None, None))
    && FirstDispatch(u) in d.dispatch
  }

  predicate PlansUnit(run: RunId, specs: seq<UnitSpec>, u: UnitId) {
    u.run == run && exists i :: 0 <= i < |specs| && specs[i].key == u.key
  }

  predicate SameUnit(db: Db, d: Db, u: UnitId) {
    && (u in d.plan <==> u in db.plan) && (u in db.plan ==> d.plan[u] == db.plan[u])
    && (u in d.units <==> u in db.units) && (u in db.units ==> d.units[u] == db.units[u])
  }

  /** Nothing but the units of the plan moves. */
  ghost predicate OnlyThePlan(db: Db, d: Db, run: RunId, specs: seq<UnitSpec>) {
    && d.runs == db.runs && d.attempts == db.attempts && db.dispatch <= d.dispatch
    && (forall u :: !PlansUnit(run, specs, u) ==> SameUnit(db, d, u))
    && (forall k :: k in d.dispatch && k !in db.dispatch ==> k.FirstDispatch? && PlansUnit(run, specs, k.unit))
  }

  lemma {:induction false} PersistUnitsWrites(db: Db, run: RunId, specs: seq<UnitSpec>)
    requires DistinctKeys(specs)
    ensures var d := PersistUnits(db, run, specs);
            OnlyThePlan(db, d, run, specs) && forall i :: 0 <= i < |specs| ==> UnitPersisted(db, d, run, specs[i])
  {
    if specs != [] {
      var n := |specs| - 1;
      var mid := PersistUnits(db, run, specs[..n]);
      assert forall i :: 0 <= i < n ==> specs[..n][i] == specs[i];
      PersistUnitsWrites(db, run, specs[..n]);
      forall u ensures PlansUnit(run, specs, u) <==> PlansUnit(run, specs[..n], u) || u == UnitId(run, specs[n].key) {
        PlansOneMore(run, specs, u);
      }
      PersistLast(db, mid, run, specs);
    }
  }

  lemma PlansOneMore(run: RunId, specs: seq<UnitSpec>, u: UnitId)
    requires specs != []
    ensures PlansUnit(run, specs, u) <==> PlansUnit(run, specs[..|specs| - 1], u) || u == UnitId(run, specs[|specs| - 1].key)
  {
    var n := |specs| - 1;
    if PlansUnit(run, specs, u) && u.key != specs[n].key {
      var i :| 0 <= i < |specs| && specs[i].key == u.key;
      assert specs[..n][i].key == u.key;
    }
    if PlansUnit(run, specs[..n], u) {
      var i :| 0 <= i < n && specs[..n][i].key == u.key;
      assert specs[i].key == u.key;
    }
  }

  lemma PersistLast(db: Db, mid: Db, run: RunId, specs: seq<UnitSpec>)
    requires specs != [] && DistinctKeys(specs)
    requires OnlyThePlan(db, mid, run, specs[..|specs| - 1])
    requires forall i :: 0 <= i < |specs| - 1 ==> UnitPersisted(db, mid, run, specs[i])
    requires forall u :: PlansUnit(run, specs, u) <==> PlansUnit(run, specs[..|specs| - 1], u) || u == UnitId(run, specs[|specs| - 1].key)
    ensures var d := PersistUnit(mid, run, specs[|specs| - 1]);
            OnlyThePlan(db, d, run, specs) && forall i :: 0 <= i < |specs| ==> UnitPersisted(db, d, run, specs[i])
  {
    var n := |specs| - 1;
    var d, last := PersistUnit(mid, run, specs[n]), UnitId(run, specs[n].key);
    forall u | !PlansUnit(run, specs, u) ensures SameUnit(db, d, u) {
      assert SameUnit(db, mid, u) && SameUnit(mid, d, u);
    }
    forall i | 0 <= i < |specs| ensures UnitPersisted(db, d, run, specs[i]) {
      if i < n {
        assert UnitPersisted(db, mid, run, specs[i]) && SameUnit(mid, d, UnitId(run, specs[i].key));
      } else {
        assert SameUnit(db, mid, last);
      }
    }
  }

  /** Why a plan is refused, first reason first. */
  ghost function Refusal(db: Db, run: RunId, specs: seq<UnitSpec>): Option<StoreError> {
    if run !in db.runs then Some(UnknownRun)
    else if exists i, j :: 0 <= i < j < |specs| && specs[i].key == specs[j].key then Some(DuplicateUnitKey)
    else if exists u :: u in db.plan && u.run == run then Some(PlanConflict)
    else if db.runs[run].status in {RunStatus.RunPending, RunPlanning} then None
    else Some(RunNotPlannable)
  }

  /**
   A plan that is accepted persists every unit with its first wakeup and makes the run running, in one step; a plan
   that is refused changes nothing, except that the rows of a run that is not plannable stay.
   */
  ghost predicate AllOrNothing(db: Db, d: Db, error: Option<StoreError>, run: RunId, specs: seq<UnitSpec>) {
    && error == Refusal(db, run, specs)
    && (error.Some? && error.value != RunNotPlannable ==> d == db)
    && (error.None? ==> run in db.runs && d.runs == db.runs[run := RunRow(RunRunning, db.runs[run].executionRevision)])
    && (error == Some(RunNotPlannable) ==> d.runs == db.runs)
    && (error.None? || error.value == RunNotPlannable ==>
        && OnlyThePlan(db, d.(runs := db.runs), run, specs)
        && forall i :: 0 <= i < |specs| ==> UnitPersisted(db, d, run, specs[i]))
  }

  lemma {:induction false} PlanIsAllOrNothing(db: Db, run: RunId, specs: seq<UnitSpec>)
    ensures var (d, error) := PlanRun(db, run, specs);
            AllOrNothing(db, d, error, run, specs)
  {
    assert DistinctKeys(specs) <==> !exists i, j :: 0 <= i < j < |specs| && specs[i].key == specs[j].key;
    if run in db.runs && DistinctKeys(specs) && !HasPlan(db, run) {
      PersistUnitsWrites(db, run, specs);
      var d := PersistUnits(db, run, specs);
      forall i | 0 <= i < |specs| ensures UnitPersisted(db, PlanRun(db, run, specs).0, run, specs[i]) {
        assert UnitPersisted(db, d, run, specs[i]);
      }
    }
  }

  predicate EveryUnitIn(units: map<UnitId, UnitRow>, run: RunId, statuses: set<UnitStatus>) {
    forall u :: u in units && u.run == run ==> units[u].status in statuses
  }

  /** A running run whose units are all closed gets its verdict: failed exactly if one of them is dead-lettered. */
  function Decided(runs: map<RunId, RunRow>, units: map<UnitId, UnitRow>, run: RunId): map<RunId, RunRow> {
    if run in runs && runs[run].status == RunRunning && EveryUnitIn(units, run, {Succeeded, DeadLettered, Cancelled})
    then runs[run := RunRow(if EveryUnitIn(units, run, {Succeeded, Cancelled}) then RunSucceeded else RunFailed,
                            runs[run].executionRevision)]
    else runs
  }

  /** The row of a finished attempt: nobody's any more, waiting only for a retry, the newest result and error kept. */
  function EndedRow(row: UnitRow, outcome: Outcome, result: Option<Json>, error: Option<Json>, retryAt: Option<int>): UnitRow {
    var status := match outcome
      case OutcomeSucceeded => Succeeded
      case OutcomePermanent => UnitStatus.Failed
      case OutcomeRetryable => RetryScheduled
      case OutcomeRateLimited => RetryScheduled
      case OutcomeCancelled => Cancelled;
    UnitRow(status, row.attemptCount, retryAt, None, None, row.claimToken,
            if result.Some? then result else row.result, if error.Some? then error else row.lastError)
  }

  /** One row per attempt, written by the first to report it. */
  function WithAttempt(attempts: map<AttemptId, AttemptRow>, c: ClaimedUnit, outcome: Outcome, error: Option<Json>)
    : map<AttemptId, AttemptRow>
  {
    var id := AttemptId(c.unit, c.attempt);
    attempts[id := if id in attempts then attempts[id] else AttemptRow(outcome, error)]
  }

  // ---- what a claim asks for and leaves ----

  /** Ready or waiting for a retry, its time has come, and nobody's claim on it still runs. */
  predicate ReadyToClaim(row: UnitRow, now: int) {
    && (row.status == Ready || row.status == RetryScheduled)
    && (row.nextAttemptAt.Some? ==> row.nextAttemptAt.value <= now)
    && (row.claimExpiresAt.Some? ==> row.claimExpiresAt.value < now)
  }

  function HeldRow(row: UnitRow, owner: InstanceId, expiry: int): UnitRow {
    UnitRow(Running, row.attemptCount + 1, None, Some(owner), Some(expiry), row.claimToken + 1, row.result, row.lastError)
  }

  /** A planned unit of a run of this revision that can be claimed. */
  predicate Offered(db: Db, now: int, revision: Option<RevisionId>, u: UnitId) {
    && u in db.units && u in db.plan && u.run in db.runs && ReadyToClaim(db.units[u], now)
    && (revision.Some? ==> db.runs[u.run].executionRevision == revision.value)
  }

  /** Units that were never put off come first, then the earlier due ones, then by key. */
  predicate ComesFirst(db: Db, a: UnitId, b: UnitId) {
    && a in db.units && b in db.units
    && match (db.units[a].nextAttemptAt, db.units[b].nextAttemptAt)
       case (None, Some(_)) => true
       case (Some(_), None) => false
       case (None, None) => Text.Precedes(a.key, b.key)
       case (Some(s), Some(t)) => s < t || (s == t && Text.Precedes(a.key, b.key))
  }

  /** Distinct units on offer, no more than the limit; one left behind means the limit was reached by earlier ones. */
  ghost predicate TakesFirst(db: Db, now: int, revision: Option<RevisionId>, limit: nat, us: seq<UnitId>) {
    && (forall i, j :: 0 <= i < j < |us| ==> us[i] != us[j]) && |us| <= limit
    && (forall u :: u in us ==> Offered(db, now, revision, u))
    && (forall v :: Offered(db, now, revision, v) && v !in us ==>
        |us| == limit && forall u :: u in us ==> !ComesFirst(db, v, u))
  }

  lemma OfferedIsDue(db: Db, now: int, revision: Option<RevisionId>, u: UnitId)
    ensures Offered(db, now, revision, u) <==> DueFor(db, now, revision, u)
  {
  }

  lemma ComesFirstIsPolledBefore(db: Db, a: UnitId, b: UnitId)
    ensures ComesFirst(db, a, b) <==> PolledBefore(db, a, b)
  {
  }

  lemma SelectionTakesFirst(db: Db, now: int, revision: Option<RevisionId>, limit: nat, us: seq<UnitId>)
    requires PollSelection(db, now, revision, limit, us)
    ensures TakesFirst(db, now, revision, limit, us)
  {
    forall u ensures Offered(db, now, revision, u) <==> DueFor(db, now, revision, u) {
      OfferedIsDue(db, now, revision, u);
    }
    forall a, b ensures ComesFirst(db, a, b) <==> PolledBefore(db, a, b) {
      ComesFirstIsPolledBefore(db, a, b);
    }
  }

  /** A claim a poll handed out, and the row it left. */
  predicate JustClaimed(start: Db, db: Db, now: int, owner: InstanceId, grace: int, c: ClaimedUnit) {
    && c.unit in start.units && c.unit in start.plan && c.unit in db.units
    && var r, expiry := start.units[c.unit], now + start.plan[c.unit].timeout + grace;
       && c == ClaimedUnit(c.unit, start.plan[c.unit], r.attemptCount + 1, r.claimToken + 1, expiry)
       && db.units[c.unit] == HeldRow(r, owner, expiry)
  }

  lemma {:induction false} StaysClaimed(start: Db, db: Db, d: Db, now: int, owner: InstanceId, grace: int, c: ClaimedUnit)
    requires JustClaimed(start, db, now, owner, grace, c)
    requires c.unit in d.units && d.units[c.unit] == db.units[c.unit]
    ensures JustClaimed(start, d, now, owner, grace, c)
  {
  }

  /** After a poll's transaction each claim holds its unit. */
  lemma {:induction false} ClaimedRows(db: Db, now: int, owner: InstanceId, claimed: seq<ClaimedUnit>, grace: int)
    requires GrantedBy(db, now, owner, grace, claimed)
    requires forall i, j :: 0 <= i < j < |claimed| ==> Units(claimed)[i] != Units(claimed)[j]
    ensures forall c :: c in claimed ==> JustClaimed(db, ClaimAll(db, now, owner, Units(claimed), grace), now, owner, grace, c)
  {
    if claimed != [] {
      var n := |claimed| - 1;
      var c := claimed[n];
      assert Units(claimed)[..n] == Units(claimed[..n]);
      assert GrantedBy(db, now, owner, grace, claimed[..n]);
      ClaimedRows(db, now, owner, claimed[..n], grace);
      ClaimedLast(db, now, owner, claimed, grace);
    }
  }

  lemma {:induction false} ClaimedLast(db: Db, now: int, owner: InstanceId, claimed: seq<ClaimedUnit>, grace: int)
    requires claimed != [] && GrantedBy(db, now, owner, grace, claimed)
    requires forall i, j :: 0 <= i < j < |claimed| ==> Units(claimed)[i] != Units(claimed)[j]
    requires Units(claimed)[..|claimed| - 1] == Units(claimed[..|claimed| - 1])
    requires var mid := ClaimAll(db, now, owner, Units(claimed[..|claimed| - 1]), grace);
             forall i :: 0 <= i < |claimed| - 1 ==> JustClaimed(db, mid, now, owner, grace, claimed[i])
    ensures forall c :: c in claimed ==> JustClaimed(db, ClaimAll(db, now, owner, Units(claimed), grace), now, owner, grace, c)
  {
    var n := |claimed| - 1;
    var c, us := claimed[n], Units(claimed[..n]);
    var mid, after := ClaimAll(db, now, owner, us, grace), ClaimAll(db, now, owner, Units(claimed), grace);
    ClaimAllFrame(db, now, owner, us, grace);
    assert c in claimed && c.unit !in us;
    assert after == ClaimUnit(mid, now, owner, c.unit, grace).0;
    ClaimedNow(db, mid, now, owner, grace, c);
    forall i | 0 <= i < n ensures JustClaimed(db, after, now, owner, grace, claimed[i]) {
      assert JustClaimed(db, mid, now, owner, grace, claimed[i]) && claimed[i].unit != c.unit;
      StaysClaimed(db, mid, after, now, owner, grace, claimed[i]);
    }
  }

  lemma {:induction false} ClaimedNow(db: Db, mid: Db, now: int, owner: InstanceId, grace: int, c: ClaimedUnit)
    requires ClaimUnit(db, now, owner, c.unit, grace).1 == Some(c)
    requires mid.plan == db.plan && c.unit in db.units && c.unit in mid.units && mid.units[c.unit] == db.units[c.unit]
    ensures JustClaimed(db, ClaimUnit(mid, now, owner, c.unit, grace).0, now, owner, grace, c)
  {
  }

  class FiniteStateStore {
    var runs: map<RunId, RunRow>
    var plan: map<UnitId, UnitSpec>
    var units: map<UnitId, UnitRow>
    var attempts: map<AttemptId, AttemptRow>
    var dispatch: set<DispatchKey>

    function Data(): Db
      reads this
    {
      Db(runs, plan, units, attempts, dispatch)
    }

    constructor ()
      ensures Data() == EmptyDb
    {
      runs, plan, units, attempts, dispatch := map[], map[], map[], map[], {};
    }

    method SubmitRun(run: RunId, revision: RevisionId) returns (row: RunRow)
      modifies this
      ensures Data() == FiniteTables.SubmitRun(old(Data()), run, revision)
      ensures run in runs && row == runs[run]
      ensures row == if run in old(runs) then old(runs)[run] else RunRow(RunPending, revision)
      ensures runs == old(runs)[run := row] && unchanged(`plan, `units, `attempts, `dispatch)
    {
      if run !in runs {
        runs := runs[run := RunRow(RunPending, revision)];
      }
      row := runs[run];
    }

    method TransitionRun(run: RunId, status: RunStatus) returns (error: Option<StoreError>)
      modifies this
      ensures FiniteTables.TransitionRun(old(Data()), run, status) ==
              if error.None? then Success(Data()) else Failure(error.value)
      ensures error == if run in old(runs) then None else Some(UnknownRun)
      ensures error.Some? ==> Data() == old(Data())
      ensures error.None? ==>
                runs == old(runs)[run := RunRow(status, old(runs)[run].executionRevision)] && unchanged(`plan, `units, `attempts, `dispatch)
    {
      if run !in runs {
        return Some(UnknownRun);
      }
      runs := runs[run := runs[run].(status := status)];
      error := None;
    }

    /** PlannerRunner.plan with its `_persist` loop. */
    method PlanRun(run: RunId, specs: seq<UnitSpec>) returns (error: Option<StoreError>)
      modifies this
      ensures (Data(), error) == FiniteTables.PlanRun(old(Data()), run, specs)
      ensures AllOrNothing(old(Data()), Data(), error, run, specs)
    {
      PlanIsAllOrNothing(Data(), run, specs);
      if run !in runs {
        return Some(UnknownRun);
      }
      if !DistinctKeys(specs) {
        return Some(DuplicateUnitKey);
      }
      if HasPlan(Data(), run) {
        return Some(PlanConflict);
      }
      for i := 0 to |specs|
        invariant Data() == PersistUnits(old(Data()), run, specs[..i])
        invariant runs == old(runs)
      {
        var u := UnitId(run, specs[i].key);
        plan := plan[u := specs[i]];
        if u !in units {
          units := units[u := FreshUnit];
        }
        dispatch := dispatch + {FirstDispatch(u)};
        assert specs[..i + 1][..i] == specs[..i];
      }
      assert specs[..|specs|] == specs;
      if runs[run].status.RunPending? || runs[run].status.RunPlanning? {
        runs := runs[run := runs[run].(status := RunRunning)];
        return None;
      }
      return Some(RunNotPlannable);
    }

    method ClaimUnit(now: int, owner: InstanceId, u: UnitId, grace: int) returns (claimed: Option<ClaimedUnit>)
      modifies this
      ensures (Data(), claimed) == FiniteTables.ClaimUnit(old(Data()), now, owner, u, grace)
      ensures claimed.Some? <==> u in plan && u in old(units) && ReadyToClaim(old(units)[u], now)
      ensures claimed.None? ==> units == old(units)
      ensures claimed.Some? ==>
                && u in plan && u in old(units)
                && var r, expiry := old(units)[u], now + plan[u].timeout + grace;
                   && claimed.value == ClaimedUnit(u, plan[u], r.attemptCount + 1, r.claimToken + 1, expiry)
                   && units == old(units)[u := HeldRow(r, owner, expiry)]
      ensures unchanged(`runs, `plan, `attempts, `dispatch)
    {
      if !Due(Data(), now, u) {
        return None;
      }
      var spec := plan[u];
      var row := ClaimRow(units[u], now, owner, spec.timeout + grace);
      units := units[u := row];
      claimed := Some(ClaimedUnit(u, spec, row.attemptCount, row.claimToken, now + spec.timeout + grace));
    }

    /** The poll path: the first `limit` due units in polling order, claimed in one transaction. */
    method ClaimUnits(now: int, owner: InstanceId, limit: nat, grace: int, revision: Option<RevisionId>)
      returns (claimed: seq<ClaimedUnit>)
      modifies this
      ensures PollSelection(old(Data()), now, revision, limit, Units(claimed))
      ensures Data() == ClaimAll(old(Data()), now, owner, Units(claimed), grace)
      ensures GrantedBy(old(Data()), now, owner, grace, claimed)
      ensures TakesFirst(old(Data()), now, revision, limit, Units(claimed))
      ensures forall c :: c in claimed ==> JustClaimed(old(Data()), Data(), now, owner, grace, c)
      ensures units.Keys == old(units).Keys && forall u :: u in units && u !in Units(claimed) ==> units[u] == old(units)[u]
      ensures unchanged(`runs, `plan, `attempts, `dispatch)
    {
      ghost var start := Data();
      var waiting := set u | u in units && DueFor(Data(), now, revision, u);
      claimed := [];
      while |claimed| < limit && waiting != {}
        invariant Claiming(start, Data(), now, owner, grace, revision, claimed, waiting) && |claimed| <= limit
        decreases waiting
      {
        WaitingHasRows(start, Data(), now, owner, grace, revision, claimed, waiting);
        var u := FirstPolled(waiting);
        ClaimOneMore(start, Data(), now, owner, grace, revision, claimed, waiting, u);
        var c := ClaimUnit(now, owner, u, grace);
        waiting := waiting - {u};
        claimed := claimed + [c.value];
      }
      ClaimAllFrame(start, now, owner, Units(claimed), grace);
      SelectionTakesFirst(start, now, revision, limit, Units(claimed));
      ClaimedRows(start, now, owner, claimed, grace);
    }

    /** A unit no other waiting unit is ordered before. */
    method FirstPolled(waiting: set<UnitId>) returns (first: UnitId)
      requires waiting != {} && waiting <= units.Keys
      ensures first in waiting
      ensures forall v :: v in waiting ==> !PolledBefore(Data(), v, first)
    {
      first :| first in waiting;
      PollingIsAnOrder(Data(), first, first, first);
      var rest := waiting - {first};
      while rest != {}
        invariant first in waiting && rest <= waiting
        invariant forall v :: v in waiting - rest ==> !PolledBefore(Data(), v, first)
        decreases rest
      {
        var v :| v in rest;
        rest := rest - {v};
        if PolledBefore(Data(), v, first) {
          forall w | w in waiting - rest ensures !PolledBefore(Data(), w, v) {
            PollingIsAnOrder(Data(), w, v, first);
          }
          first := v;
        }
      }
    }

    method CompleteAttempt(c: ClaimedUnit, outcome: Outcome, result: Option<Json>, error: Option<Json>,
                           retryAt: Option<int>)
      returns (raised: Option<StoreError>)
      modifies this
      ensures FiniteTables.CompleteAttempt(old(Data()), c.unit, c.token, c.attempt, outcome, result, error, retryAt) ==
              if raised.None? then Success(Data()) else Failure(raised.value)
      ensures raised == if c.unit in old(units) && old(units)[c.unit].claimToken == c.token then None else Some(StaleClaim)
      ensures raised.Some? ==> Data() == old(Data())
      ensures raised.None? ==>
                && units == old(units)[c.unit := EndedRow(old(units)[c.unit], outcome, result, error, retryAt)]
                && attempts == WithAttempt(old(attempts), c, outcome, error) && unchanged(`runs, `plan, `dispatch)
    {
      var before := attempts;
      var id := AttemptId(c.unit, c.attempt);
      if id !in attempts {
        attempts := attempts[id := AttemptRow(outcome, error)];
      }
      if c.unit !in units || units[c.unit].claimToken != c.token {
        attempts := before;
        return Some(StaleClaim);
      }
      units := units[c.unit := CompleteRow(units[c.unit], outcome, result, error, retryAt)];
      raised := None;
    }

    method DeadLetter(c: ClaimedUnit) returns (raised: Option<StoreError>)
      modifies this
      ensures FiniteTables.DeadLetter(old(Data()), c.unit, c.token) ==
              if raised.None? then Success(Data()) else Failure(raised.value)
      ensures raised == if c.unit in old(units) && old(units)[c.unit].claimToken == c.token then None else Some(StaleClaim)
      ensures raised.Some? ==> Data() == old(Data())
      ensures raised.None? ==>
                units == old(units)[c.unit := old(units)[c.unit].(status := DeadLettered)] && unchanged(`runs, `plan, `attempts, `dispatch)
    {
      if c.unit !in units || units[c.unit].claimToken != c.token {
        return Some(StaleClaim);
      }
      units := units[c.unit := units[c.unit].(status := DeadLettered)];
      raised := None;
    }

    /** The counting query, then the guarded verdict; `None` is the failed assertion on a missing run row. */
    method FinalizeRunIfDone(run: RunId) returns (status: Option<RunStatus>)
      modifies this
      ensures Data() == FiniteTables.FinalizeRun(old(Data()), run)
      ensures unchanged(`plan, `units, `attempts, `dispatch)
      ensures runs == Decided(old(runs), units, run)
      ensures run in runs ==> status == Some(runs[run].status)
      ensures run !in runs ==> status == if AllClosed(Data(), run) then None else Some(RunPending)
    {
      var pending := set u | u in units && u.run == run && !Closed(units[u].status);
      if pending != {} {
        assert !AllClosed(Data(), run);
        return if run in runs then Some(runs[run].status) else Some(RunPending);
      }
      assert AllClosed(Data(), run) by {
        forall u | u in units && u.run == run ensures Closed(units[u].status) {
          assert u !in pending;
        }
      }
      var dead := set u | u in units && u.run == run && units[u].status.DeadLettered?;
      assert AnyDead(Data(), run) ==> dead != {} by {
        if AnyDead(Data(), run) {
          var u :| u in units && u.run == run && units[u].status.DeadLettered?;
          assert u in dead;
        }
      }
      if run in runs && runs[run].status.RunRunning? {
        runs := runs[run := runs[run].(status := if dead != {} then RunFailed else RunSucceeded)];
      }
      status := if run in runs then Some(runs[run].status) else None;
    }

    /** The keys of the succeeded units of a run, in order. */
    method SucceededKeys(run: RunId) returns (keys: seq<string>)
      ensures Text.Ascending(keys)
      ensures forall k :: k in keys <==> UnitId(run, k) in units && units[UnitId(run, k)].status.Succeeded?
    {
      var found := set u | u in units && u.run == run && units[u].status.Succeeded? :: u.key;
      assert forall k :: UnitId(run, k) in units && units[UnitId(run, k)].status.Succeeded? ==> UnitId(run, k).key in found;
      keys := Text.Sort(found);
    }

    /** The results of a run in key order, for the product to aggregate; it raises if one cannot be read. */
    method Results(run: RunId) returns (results: Result<seq<Json>, StoreError>, ghost us: seq<UnitId>)
      ensures SucceededInOrder(Data(), run, us)
      ensures results == ReadResults(Data(), us)
      ensures (forall i, j :: 0 <= i < j < |us| ==> Text.Precedes(us[i].key, us[j].key))
      ensures forall u :: u in us <==> u in units && u.run == run && units[u].status == Succeeded
      ensures results.Success? <==> forall u :: u in us ==> u in units && units[u].result.Some?
      ensures results.Success? ==>
                |results.value| == |us| && forall i :: 0 <= i < |us| ==> us[i] in units && units[us[i]].result == Some(results.value[i])
      ensures results.Failure? ==> results == Failure(UnreadableResult)
    {
      var keys := SucceededKeys(run);
      ghost var db := Data();
      us := KeysAreUnits(db, run, keys);
      var read: seq<Json> := [];
      for i := 0 to |keys|
        invariant ReadResults(db, us[..i]) == Success(read)
        invariant |read| == i && forall j :: 0 <= j < i ==> us[j] in units && units[us[j]].result == Some(read[j])
      {
        ReadOneMore(db, us, i);
        var result := units[UnitId(run, keys[i])].result;
        if result.None? {
          UnreadableStays(db, us, i + 1);
          assert us[i] in us;
          return Failure(UnreadableResult), us;
        }
        read := read + [result.value];
      }
      assert us[..|us|] == us;
      results := Success(read);
    }
  }

  lemma ReadOneMore(db: Db, us: seq<UnitId>, i: nat)
    requires i < |us| && forall u :: u in us ==> u in db.units
    ensures us[i] in db.units
    ensures var earlier, last := ReadResults(db, us[..i]), db.units[us[i]].result;
            ReadResults(db, us[..i + 1]) ==
            if earlier.Failure? || last.None? then Failure(UnreadableResult) else Success(earlier.value + [last.value])
  {
    assert us[..i + 1][..i] == us[..i] && us[i] in us;
  }

  lemma KeysAreUnits(db: Db, run: RunId, keys: seq<string>) returns (us: seq<UnitId>)
    requires Text.Ascending(keys)
    requires forall k :: k in keys <==> UnitId(run, k) in db.units && db.units[UnitId(run, k)].status.Succeeded?
    ensures |us| == |keys| && forall i :: 0 <= i < |us| ==> us[i] == UnitId(run, keys[i])
    ensures SucceededInOrder(db, run, us)
  {
    us := seq(|keys|, i requires 0 <= i < |keys| => UnitId(run, keys[i]));
    Text.AscendingIsDistinct(keys);
    forall u ensures u in us <==> u in db.units && u.run == run && db.units[u].status.Succeeded? {
      if u in db.units && u.run == run && db.units[u].status.Succeeded? {
        assert u == UnitId(run, u.key) && u.key in keys;
        var i :| 0 <= i < |keys| && keys[i] == u.key;
        assert us[i] == u;
      }
      if u in us {
        var i :| 0 <= i < |us| && us[i] == u;
        assert keys[i] in keys;
      }
    }
  }

  lemma {:induction false} UnreadableStays(db: Db, us: seq<UnitId>, i: nat)
    requires i <= |us| && forall u :: u in us ==> u in db.units
    requires ReadResults(db, us[..i]).Failure?
    ensures ReadResults(db, us) == Failure(UnreadableResult)
    decreases |us| - i
  {
    if i < |us| {
      assert us[..i + 1][..i] == us[..i];
      UnreadableStays(db, us, i + 1);
    } else {
      assert us[..i] == us;
    }
  }
}
