/**
 The finite worker (worker/finite.py): the store calls it makes for one claim, proved to be the protocol's four
 steps when nobody interferes, and its two entry points. A wakeup claims the unit its envelope names; a poll claims
 as many due units as its limit allows and carries each one to its end before it takes up the next, whatever other
 workers commit in between; the first claim that went stale ends the poll.
 */
module FiniteWorkers {
  import opened Wrappers
  import opened Retry
  import opened FiniteTables
  import opened FiniteProtocol
  import opened FiniteRefinement
  import opened FiniteStore

  /** What one uninterrupted execution of a claim does to the tables, and what it raises. */
  function Execution(db: Db, now: int, policy: Policy, c: ClaimedUnit, h: HandlerResult): (Db, Option<StoreError>) {
    var w := Decide(now, policy, c.spec, c.attempt, h);
    match CompleteAttempt(db, c.unit, c.token, c.attempt, w.outcome, w.result, w.error, w.retryAt)
    case Failure(e) => (db, Some(e))
    case Success(d) =>
      if !w.outcome.OutcomePermanent? then (FinalizeRun(d, c.unit.run), None)
      else
        match DeadLetter(d, c.unit, c.token)
        case Failure(e) => (d, Some(e))
        case Success(b) => (FinalizeRun(b, c.unit.run), None)
  }

  /** Where the documentation says a unit lands for each way a handler can end. */
  function LandsOn(spec: UnitSpec, attempt: nat, h: HandlerResult): UnitStatus {
    if h.Returned? then Succeeded
    else if h.error.class_.CancelledError? then Cancelled
    else if h.error.class_.PermanentError? || h.error.class_.ContractError? then DeadLettered
    else if attempt < spec.maxAttempts then RetryScheduled
    else DeadLettered
  }

  /** The outcome its attempt is recorded with. */
  function EndsWith(spec: UnitSpec, attempt: nat, h: HandlerResult): Outcome {
    if h.Returned? then OutcomeSucceeded
    else if h.error.class_.CancelledError? then OutcomeCancelled
    else if h.error.class_.PermanentError? || h.error.class_.ContractError? || attempt >= spec.maxAttempts then OutcomePermanent
    else if h.error.class_.RateLimitedError? then OutcomeRateLimited
    else OutcomeRetryable
  }

  /** A retry waits its backoff, or as long as a rate limit asked for if that is longer. */
  function DueAgain(spec: UnitSpec, attempt: nat, h: HandlerResult, now: int, policy: Policy): Option<int> {
    if h.Returned? || EndsWith(spec, attempt, h) in {OutcomeCancelled, OutcomePermanent} then None
    else
      var backoff := BackoffDelay(attempt, policy);
      Some(now + if h.error.class_.RateLimitedError? && h.error.class_.retryAfter > backoff then h.error.class_.retryAfter else backoff)
  }

  /** The unit is nobody's any more, and keeps the newest result and the newest error document. */
  predicate Landed(row: UnitRow, before: UnitRow, now: int, policy: Policy, c: ClaimedUnit, h: HandlerResult) {
    row == UnitRow(LandsOn(c.spec, c.attempt, h), before.attemptCount, DueAgain(c.spec, c.attempt, h, now, policy), None, None,
                   before.claimToken, if h.Returned? && h.result.Some? then h.result else before.result,
                   if h.Raised? then Some(h.error.document) else before.lastError)
  }

  /** The attempt has a row: the one it had, or what its handler ended with. */
  predicate Logged(attempts: map<AttemptId, AttemptRow>, before: map<AttemptId, AttemptRow>, c: ClaimedUnit, h: HandlerResult) {
    var id := AttemptId(c.unit, c.attempt);
    id in attempts &&
    attempts[id] == if id in before then before[id]
                    else AttemptRow(EndsWith(c.spec, c.attempt, h), if h.Raised? then Some(h.error.document) else None)
  }

  /** One claim carried through: its unit lands, its attempt is on record, its run gets the verdict it is owed, and nothing else moves. */
  predicate CarriedOut(db: Db, d: Db, now: int, policy: Policy, c: ClaimedUnit, h: HandlerResult) {
    && c.unit in db.units && c.unit in d.units && AttemptId(c.unit, c.attempt) in d.attempts
    && Landed(d.units[c.unit], db.units[c.unit], now, policy, c, h) && Logged(d.attempts, db.attempts, c, h)
    && d.units == db.units[c.unit := d.units[c.unit]]
    && d.attempts == db.attempts[AttemptId(c.unit, c.attempt) := d.attempts[AttemptId(c.unit, c.attempt)]]
    && d.runs == Decided(db.runs, d.units, c.unit.run) && d.plan == db.plan && d.dispatch == db.dispatch
  }

  lemma RecordingLands(db: Db, now: int, policy: Policy, c: ClaimedUnit, h: HandlerResult)
    requires HoldsToken(db, c.unit, c.token)
    ensures var w := Decide(now, policy, c.spec, c.attempt, h);
            var d := CompleteAttempt(db, c.unit, c.token, c.attempt, w.outcome, w.result, w.error, w.retryAt).value;
            && w.outcome == EndsWith(c.spec, c.attempt, h) && d.runs == db.runs && d.plan == db.plan && d.dispatch == db.dispatch
            && d.units == db.units[c.unit := d.units[c.unit]] && d.units[c.unit].claimToken == c.token
            && d.attempts == db.attempts[AttemptId(c.unit, c.attempt) := d.attempts[AttemptId(c.unit, c.attempt)]]
            && Logged(d.attempts, db.attempts, c, h)
            && var row := d.units[c.unit];
               Landed(if w.outcome.OutcomePermanent? then row.(status := DeadLettered) else row, db.units[c.unit], now, policy, c, h)
  {
  }

  lemma FinalizingDecides(db: Db, run: RunId)
    ensures FinalizeRun(db, run) == db.(runs := Decided(db.runs, db.units, run))
  {
    assert AnyDead(db, run) || EveryUnitIn(db.units, run, {Succeeded, Cancelled}) || !AllClosed(db, run);
  }

  /** The holder of the current token carries its claim through; any other holder raises and writes nothing. */
  lemma {:induction false} ExecutionLands(db: Db, now: int, policy: Policy, c: ClaimedUnit, h: HandlerResult)
    ensures var (d, raised) := Execution(db, now, policy, c, h);
            if c.unit in db.units && db.units[c.unit].claimToken == c.token
            then raised.None? && CarriedOut(db, d, now, policy, c, h)
            else raised == Some(StaleClaim) && d == db
  {
    if HoldsToken(db, c.unit, c.token) {
      RecordingLands(db, now, policy, c, h);
      var w := Decide(now, policy, c.spec, c.attempt, h);
      var d := CompleteAttempt(db, c.unit, c.token, c.attempt, w.outcome, w.result, w.error, w.retryAt).value;
      var b := if w.outcome.OutcomePermanent? then DeadLetter(d, c.unit, c.token).value else d;
      FinalizingDecides(b, c.unit.run);
    }
  }

  /** Run without interference, the worker's program is the protocol's Finish, Record, Bury and Finalize steps. */
  lemma {:induction false} ExecutionIsFourSteps(s: System, u: UnitId, c: ClaimedUnit, h: HandlerResult)
    requires u in s.cells && c.unit == u && c.token in s.cells[u].tasks
    requires var t := s.cells[u].tasks[c.token]; t == Task(c.spec, c.attempt, t.ahead, Holding) && HasTurn(s, t)
    ensures var done := Step(Step(Step(Step(s, OnUnit(u, Finish(c.token, h))), OnUnit(u, Record(c.token))),
                                  OnUnit(u, Bury(c.token))), OnUnit(u, Finalize(c.token)));
            Tables(done) == Execution(Tables(s), s.now, s.policy, c, h).0
  {
    var w := Decide(s.now, s.policy, c.spec, c.attempt, h);
    var finished := Step(s, OnUnit(u, Finish(c.token, h)));
    FromFinished(s, finished, u, c, h);
    var recorded := Step(finished, OnUnit(u, Record(c.token)));
    if s.cells[u].row.claimToken != c.token {
      Dismissed(recorded, u, c.token);
    } else {
      FromRecorded(recorded, u, c.token, w.outcome);
    }
  }

  /** The handler ended: nothing is written yet, and the outcome is decided. */
  lemma JustFinished(s: System, finished: System, u: UnitId, c: ClaimedUnit, h: HandlerResult)
    requires u in s.cells && c.unit == u && c.token in s.cells[u].tasks
    requires var t := s.cells[u].tasks[c.token]; t == Task(c.spec, c.attempt, t.ahead, Holding) && HasTurn(s, t)
    requires finished == Step(s, OnUnit(u, Finish(c.token, h)))
    ensures Tables(finished) == Tables(s) && u in finished.cells && finished.cells[u].row == s.cells[u].row
    ensures Doing(finished.cells[u], c.token, Decide(s.now, s.policy, c.spec, c.attempt, h))
    ensures finished.cells[u].tasks[c.token].attempt == c.attempt
  {
    SameRows(s, finished, u);
    assert Tables(s).units[u := s.cells[u].row] == Tables(s).units;
  }

  lemma JustRecorded(s: System, u: UnitId, token: nat)
    requires u in s.cells && Writing(s.cells[u], token)
    ensures var recorded := Step(s, OnUnit(u, Record(token)));
            && u in recorded.cells && recorded.cells[u].row.claimToken == s.cells[u].row.claimToken
            && (if s.cells[u].row.claimToken == token
                then Doing(recorded.cells[u], token, AfterRecording(s.cells[u].tasks[token].stage.outcome))
                else token !in recorded.cells[u].tasks)
  {
  }

  lemma FromFinished(s: System, finished: System, u: UnitId, c: ClaimedUnit, h: HandlerResult)
    requires u in s.cells && c.unit == u && c.token in s.cells[u].tasks
    requires var t := s.cells[u].tasks[c.token]; t == Task(c.spec, c.attempt, t.ahead, Holding) && HasTurn(s, t)
    requires finished == Step(s, OnUnit(u, Finish(c.token, h)))
    ensures var w := Decide(s.now, s.policy, c.spec, c.attempt, h);
            var recorded := Step(finished, OnUnit(u, Record(c.token)));
            var r := CompleteAttempt(Tables(s), u, c.token, c.attempt, w.outcome, w.result, w.error, w.retryAt);
            && u in recorded.cells && recorded.cells[u].row.claimToken == s.cells[u].row.claimToken
            && Tables(recorded) == (if r.Success? then r.value else Tables(s))
            && (if s.cells[u].row.claimToken == c.token then Doing(recorded.cells[u], c.token, AfterRecording(w.outcome))
                else c.token !in recorded.cells[u].tasks)
  {
    JustFinished(s, finished, u, c, h);
    JustRecorded(finished, u, c.token);
    RecordRefines(finished, u, c.token);
  }

  lemma Dismissed(s: System, u: UnitId, token: nat)
    requires u in s.cells && token !in s.cells[u].tasks
    ensures Tables(Step(Step(s, OnUnit(u, Bury(token))), OnUnit(u, Finalize(token)))) == Tables(s)
  {
    assert s.cells[u := s.cells[u]] == s.cells;
    assert Step(s, OnUnit(u, Bury(token))) == s;
    assert Step(s, OnUnit(u, Finalize(token))) == s;
  }

  lemma FromRecorded(s: System, u: UnitId, token: nat, outcome: Outcome)
    requires u in s.cells && Doing(s.cells[u], token, AfterRecording(outcome)) && s.cells[u].row.claimToken == token
    ensures var done := Step(Step(s, OnUnit(u, Bury(token))), OnUnit(u, Finalize(token)));
            Tables(done) == if outcome.OutcomePermanent?
                            then FinalizeRun(DeadLetter(Tables(s), u, token).value, u.run)
                            else FinalizeRun(Tables(s), u.run)
  {
    var buried := Step(s, OnUnit(u, Bury(token)));
    if outcome.OutcomePermanent? {
      BuryRefines(s, u, token);
    } else {
      assert buried.cells == s.cells;
    }
    assert u in buried.cells && Doing(buried.cells[u], token, Finalizing);
    FinalizeRefines(buried, u, token);
  }

  /** How a handler ends, and when. */
  datatype Ending = Ending(result: HandlerResult, at: int)

  /** What the worker reports about an attempt. */
  datatype HandledUnit = HandledUnit(unit: UnitId, outcome: Outcome)

  /** The report goes by what the handler raised alone, whatever attempt it was. */
  function Summary(c: ClaimedUnit, h: HandlerResult): HandledUnit {
    HandledUnit(c.unit, match h
      case Returned(_) => OutcomeSucceeded
      case Raised(e) =>
        match e.class_
        case CancelledError => OutcomeCancelled
        case RateLimitedError(_) => OutcomeRateLimited
        case PermanentError => OutcomePermanent
        case ContractError => OutcomePermanent
        case RetryableError => OutcomeRetryable
        case UnexpectedError => OutcomeRetryable)
  }

  /** One report a claim, in claim order. */
  function Summaries(claimed: seq<ClaimedUnit>, handler: ClaimedUnit -> Ending): (r: seq<HandledUnit>)
    ensures |r| == |claimed| && forall i :: 0 <= i < |r| ==> r[i] == Summary(claimed[i], handler(claimed[i]).result)
  {
    if claimed == [] then []
    else
      var c := claimed[|claimed| - 1];
      Summaries(claimed[..|claimed| - 1], handler) + [Summary(c, handler(c).result)]
  }

  lemma {:induction false} SummariesOneMore(claimed: seq<ClaimedUnit>, i: nat, handler: ClaimedUnit -> Ending)
    requires i < |claimed|
    ensures Summaries(claimed[..i + 1], handler) ==
            Summaries(claimed[..i], handler) + [Summary(claimed[i], handler(claimed[i]).result)]
  {
    assert claimed[..i + 1][..i] == claimed[..i];
  }

  /** The status a reader of the report expects the unit to have. */
  function Reported(outcome: Outcome): UnitStatus {
    if outcome.OutcomePermanent? then DeadLettered else FinalStatus(outcome)
  }

  /** The report keeps the handler's outcome, so it is wrong about the unit exactly when its last retry was used up. */
  lemma {:induction false} SummaryIsRightUnlessExhausted(c: ClaimedUnit, h: HandlerResult)
    ensures var outcome := Summary(c, h).outcome;
            Reported(outcome) == LandsOn(c.spec, c.attempt, h) <==>
            !(outcome in {OutcomeRetryable, OutcomeRateLimited} && c.attempt >= c.spec.maxAttempts)
  {
  }

  function ErrorOf<T>(r: Result<T, StoreError>): Option<StoreError> {
    if r.Failure? then Some(r.error) else None
  }

  class FiniteWorker {
    const store: FiniteStore.FiniteStateStore
    const instance: InstanceId
    const policy: Policy
    const poolRevision: Option<RevisionId>

    constructor (store: FiniteStore.FiniteStateStore, instance: InstanceId, policy: Policy,
                 poolRevision: Option<RevisionId>)
      ensures this.store == store && this.instance == instance && this.policy == policy
      ensures this.poolRevision == poolRevision
    {
      this.store, this.instance, this.policy, this.poolRevision := store, instance, policy, poolRevision;
    }

    method ExecuteClaimed(c: ClaimedUnit, handler: ClaimedUnit -> Ending)
      returns (handled: Result<HandledUnit, StoreError>)
      modifies store
      ensures (store.Data(), ErrorOf(handled)) ==
              Execution(old(store.Data()), handler(c).at, policy, c, handler(c).result)
      ensures handled == if c.unit in old(store.units) && old(store.units)[c.unit].claimToken == c.token
                         then Success(Summary(c, handler(c).result)) else Failure(StaleClaim)
      ensures handled.Failure? ==> store.Data() == old(store.Data())
      ensures handled.Success? ==> CarriedOut(old(store.Data()), store.Data(), handler(c).at, policy, c, handler(c).result)
    {
      ExecutionLands(store.Data(), handler(c).at, policy, c, handler(c).result);
      var end := handler(c);
      var raised, outcome;
      match end.result {
        case Returned(result) =>
          outcome := OutcomeSucceeded;
          raised := store.CompleteAttempt(c, OutcomeSucceeded, result, None, None);
          if raised.None? {
            var _ := store.FinalizeRunIfDone(c.unit.run);
          }
        case Raised(error) =>
          var classified := ClassifyError(error, c.attempt, policy);
          outcome := classified.outcome;
          raised := RecordFailure(c, classified, end.at);
      }
      handled := if raised.Some? then Failure(raised.value) else Success(HandledUnit(c.unit, outcome));
    }

    method RecordFailure(c: ClaimedUnit, outcome: AttemptOutcome, now: int) returns (raised: Option<StoreError>)
      requires WillRetry(outcome.outcome) || outcome.retryDelay.None?
      modifies store
      ensures forall e: HandlerError :: ClassifyError(e, c.attempt, policy) == outcome ==>
                (store.Data(), raised) == Execution(old(store.Data()), now, policy, c, Raised(e))
    {
      var final, retryAt := outcome.outcome, if outcome.retryDelay.None? then None else Some(now + outcome.retryDelay.value);
      if RetriesExhausted(c.spec.maxAttempts, c.attempt) && WillRetry(outcome.outcome) {
        final, retryAt := OutcomePermanent, None;
      }
      raised := store.CompleteAttempt(c, final, None, Some(outcome.error), retryAt);
      if raised.Some? {
        return;
      }
      if final == OutcomePermanent {
        raised := store.DeadLetter(c);
        if raised.Some? {
          return;
        }
      }
      var _ := store.FinalizeRunIfDone(c.unit.run);
    }

    /** A wakeup: claim the named unit and run one attempt; an empty key or a unit that is not due is a miss. */
    method HandleEnvelope(now: int, run: RunId, unitKey: string, handler: ClaimedUnit -> Ending)
      returns (handled: Option<HandledUnit>, claimed: Option<ClaimedUnit>)
      modifies store
      ensures claimed.Some? <==>
                var u := UnitId(run, unitKey);
                unitKey != "" && u in old(store.plan) && u in old(store.units) && ReadyToClaim(old(store.units)[u], now)
      ensures claimed.None? ==> handled.None? && store.Data() == old(store.Data())
      ensures claimed.Some? ==>
                var u, c := UnitId(run, unitKey), claimed.value;
                && u in old(store.units) && u in old(store.plan)
                && var r, expiry := old(store.units)[u], now + old(store.plan)[u].timeout + policy.claimGrace;
                   && c == ClaimedUnit(u, old(store.plan)[u], r.attemptCount + 1, r.claimToken + 1, expiry)
                   && handled == Some(Summary(c, handler(c).result))
                   && CarriedOut(old(store.Data()).(units := old(store.units)[u := HeldRow(r, instance, expiry)]), store.Data(),
                                 handler(c).at, policy, c, handler(c).result)
    {
      if unitKey == "" {
        return None, None;
      }
      claimed := store.ClaimUnit(now, instance, UnitId(run, unitKey), policy.claimGrace);
      if claimed.None? {
        return None, None;
      }
      var c := claimed.value;
      var r := ExecuteClaimed(c, handler);
      handled := Some(r.value);
    }

    /** What other workers, planners and operators commit in the meantime. */
    method Meanwhile(i: nat, others: (nat, Db) -> Db)
      modifies store
      ensures store.Data() == others(i, old(store.Data()))
    {
      var db := others(i, store.Data());
      store.runs, store.plan, store.units := db.runs, db.plan, db.units;
      store.attempts, store.dispatch := db.attempts, db.dispatch;
    }

    /** The loop over the claims of a poll; the first one that raises leaves it. */
    method ExecuteAll(claimed: seq<ClaimedUnit>, handler: ClaimedUnit -> Ending, others: (nat, Db) -> Db)
      returns (results: Result<seq<HandledUnit>, StoreError>, ghost executed: nat)
      modifies store
      ensures PollEnds(old(store.Data()), store.Data(), policy, claimed, executed, handler, others)
      ensures results == if executed < |claimed| then Failure(StaleClaim) else Success(Summaries(claimed, handler))
    {
      ghost var start := store.Data();
      var reports := [];
      executed := 0;
      for i := 0 to |claimed|
        invariant executed == i && reports == Summaries(claimed[..i], handler)
        invariant PollSoFar(start, store.Data(), policy, claimed, i, handler, others)
      {
        PollOneOn(start, store.Data(), policy, claimed, i, handler, others);
        SummariesOneMore(claimed, i, handler);
        Meanwhile(i, others);
        var r := ExecuteClaimed(claimed[i], handler);
        if r.Failure? {
          return Failure(r.error), executed;
        }
        reports := reports + [r.value];
        executed := executed + 1;
      }
      assert claimed[..|claimed|] == claimed;
      results := Success(reports);
    }

    /**
     The poll path: claim due units in one transaction, then run them one by one; before each outcome is recorded
     the others may have committed anything. Claim `i` is carried through exactly if it and every earlier claim still
     held its token when its outcome was recorded; the first one that did not raises, and neither the claims after it
     nor any report come back. Undisturbed, every claimed unit lands and is reported, in claim order, and every other
     row keeps its value.
     */
    method PollOnce(now: int, limit: nat, handler: ClaimedUnit -> Ending, others: (nat, Db) -> Db)
      returns (results: Result<seq<HandledUnit>, StoreError>, claimed: seq<ClaimedUnit>, ghost executed: nat)
      modifies store
      ensures TakesFirst(old(store.Data()), now, poolRevision, limit, Units(claimed))
      ensures forall c :: c in claimed ==>
                JustClaimed(old(store.Data()), ClaimAll(old(store.Data()), now, instance, Units(claimed), policy.claimGrace),
                            now, instance, policy.claimGrace, c)
      ensures PollEnds(ClaimAll(old(store.Data()), now, instance, Units(claimed), policy.claimGrace), store.Data(),
                       policy, claimed, executed, handler, others)
      ensures results == if executed < |claimed| then Failure(StaleClaim) else Success(Summaries(claimed, handler))
      ensures Undisturbed(others) ==>
                && executed == |claimed| && OnlyTheirs(old(store.Data()), store.Data(), claimed)
                && (forall i :: 0 <= i < |claimed| ==>
                    HasLanded(old(store.Data()), store.Data(), now, instance, policy, claimed[i], handler(claimed[i])))
    {
      ghost var before := store.Data();
      claimed := store.ClaimUnits(now, instance, limit, policy.claimGrace, poolRevision);
      ghost var start := store.Data();
      results, executed := ExecuteAll(claimed, handler, others);
      if Undisturbed(others) {
        UndisturbedPoll(before, start, store.Data(), now, instance, policy, claimed, executed, handler, others);
      }
    }
  }

  // ---- what a poll meets ----

  /** The tables after the poll executed its first `i` claims, and what the others commit before the next outcome. */
  function LeftBy(start: Db, policy: Policy, claimed: seq<ClaimedUnit>, i: nat, handler: ClaimedUnit -> Ending, others: (nat, Db) -> Db): Db
    requires i <= |claimed|
  {
    if i == 0 then start
    else
      var c := claimed[i - 1];
      Execution(others(i - 1, LeftBy(start, policy, claimed, i - 1, handler, others)), handler(c).at, policy, c, handler(c).result).0
  }

  /** The tables that the outcome of claim `i` meets. */
  function MetBy(start: Db, policy: Policy, claimed: seq<ClaimedUnit>, i: nat, handler: ClaimedUnit -> Ending, others: (nat, Db) -> Db): Db
    requires i < |claimed|
  {
    others(i, LeftBy(start, policy, claimed, i, handler, others))
  }

  predicate StillHeld(start: Db, policy: Policy, claimed: seq<ClaimedUnit>, i: nat, handler: ClaimedUnit -> Ending, others: (nat, Db) -> Db)
    requires i < |claimed|
  {
    HoldsToken(MetBy(start, policy, claimed, i, handler, others), claimed[i].unit, claimed[i].token)
  }

  /** Every claim before the first stale one was carried through, and the tables are as that one met them. */
  ghost predicate PollEnds(start: Db, db: Db, policy: Policy, claimed: seq<ClaimedUnit>, executed: nat,
                           handler: ClaimedUnit -> Ending, others: (nat, Db) -> Db) {
    && executed <= |claimed|
    && (forall i :: 0 <= i < executed ==> StillHeld(start, policy, claimed, i, handler, others))
    && (executed < |claimed| ==> !StillHeld(start, policy, claimed, executed, handler, others))
    && db == (if executed < |claimed| then MetBy(start, policy, claimed, executed, handler, others)
              else LeftBy(start, policy, claimed, executed, handler, others))
  }

  ghost predicate Undisturbed(others: (nat, Db) -> Db) {
    forall i, db :: others(i, db) == db
  }

  /** The poll has carried its first `i` claims through, each of which held its token. */
  ghost predicate PollSoFar(start: Db, db: Db, policy: Policy, claimed: seq<ClaimedUnit>, i: nat,
                            handler: ClaimedUnit -> Ending, others: (nat, Db) -> Db) {
    && i <= |claimed| && db == LeftBy(start, policy, claimed, i, handler, others)
    && (forall j :: 0 <= j < i ==> StillHeld(start, policy, claimed, j, handler, others))
  }

  /** The next claim is carried through exactly if it still holds its token; a stale one raises and writes nothing. */
  lemma {:induction false} PollOneOn(start: Db, db: Db, policy: Policy, claimed: seq<ClaimedUnit>, i: nat,
                                     handler: ClaimedUnit -> Ending, others: (nat, Db) -> Db)
    requires i < |claimed| && PollSoFar(start, db, policy, claimed, i, handler, others)
    ensures var met, c := MetBy(start, policy, claimed, i, handler, others), claimed[i];
            var (d, raised) := Execution(met, handler(c).at, policy, c, handler(c).result);
            && met == others(i, db)
            && (raised.None? <==> StillHeld(start, policy, claimed, i, handler, others))
            && (raised.None? ==> PollSoFar(start, d, policy, claimed, i + 1, handler, others))
            && (raised.Some? ==> raised == Some(StaleClaim) && d == met)
  {
    var met, c := MetBy(start, policy, claimed, i, handler, others), claimed[i];
    ExecutionLands(met, handler(c).at, policy, c, handler(c).result);
  }

  predicate HasLanded(start: Db, db: Db, now: int, owner: InstanceId, policy: Policy, c: ClaimedUnit, end: Ending) {
    && c.unit in start.units && c.unit in db.units
    && Landed(db.units[c.unit], HeldRow(start.units[c.unit], owner, c.expiresAt), end.at, policy, c, end.result)
    && Logged(db.attempts, start.attempts, c, end.result)
  }

  predicate IsOf(id: AttemptId, claimed: seq<ClaimedUnit>) {
    exists c :: c in claimed && id == AttemptId(c.unit, c.attempt)
  }

  /** Nothing but the runs, the claimed units and the rows of their attempts has moved. */
  ghost predicate OnlyTheirs(start: Db, db: Db, claimed: seq<ClaimedUnit>) {
    && db.units.Keys == start.units.Keys && db.plan == start.plan && db.dispatch == start.dispatch
    && (forall u :: u in db.units && u !in Units(claimed) ==> db.units[u] == start.units[u])
    && (forall id :: id in start.attempts ==> id in db.attempts && db.attempts[id] == start.attempts[id])
    && (forall id :: id in db.attempts && id !in start.attempts ==> IsOf(id, claimed))
  }

  /** A claim whose attempt is not on record yet, unless it was before the poll. */
  predicate StillOpen(start: Db, db: Db, now: int, owner: InstanceId, grace: int, c: ClaimedUnit) {
    && JustClaimed(start, db, now, owner, grace, c)
    && (AttemptId(c.unit, c.attempt) in db.attempts ==> AttemptId(c.unit, c.attempt) in start.attempts)
  }

  /** A poll that has executed its first `i` claims: those landed, the others still hold their units. */
  ghost predicate PollProgress(start: Db, db: Db, now: int, owner: InstanceId, policy: Policy, claimed: seq<ClaimedUnit>,
                               i: nat, handler: ClaimedUnit -> Ending) {
    && i <= |claimed| && OnlyTheirs(start, db, claimed)
    && (forall j :: 0 <= j < i ==> HasLanded(start, db, now, owner, policy, claimed[j], handler(claimed[j])))
    && (forall j :: i <= j < |claimed| ==> StillOpen(start, db, now, owner, policy.claimGrace, claimed[j]))
    && (forall j, k :: 0 <= j < k < |claimed| ==> claimed[j].unit != claimed[k].unit)
  }

  lemma {:induction false} PollBegins(start: Db, now: int, owner: InstanceId, policy: Policy, claimed: seq<ClaimedUnit>,
                   handler: ClaimedUnit -> Ending)
    requires GrantedBy(start, now, owner, policy.claimGrace, claimed)
    requires forall i, j :: 0 <= i < j < |claimed| ==> Units(claimed)[i] != Units(claimed)[j]
    ensures PollProgress(start, ClaimAll(start, now, owner, Units(claimed), policy.claimGrace), now, owner, policy, claimed, 0, handler)
  {
    var db := ClaimAll(start, now, owner, Units(claimed), policy.claimGrace);
    ClaimedRows(start, now, owner, claimed, policy.claimGrace);
    ClaimAllFrame(start, now, owner, Units(claimed), policy.claimGrace);
    NothingExecuted(start, db, now, owner, policy, claimed, handler);
  }

  lemma {:induction false} NothingExecuted(start: Db, db: Db, now: int, owner: InstanceId, policy: Policy, claimed: seq<ClaimedUnit>,
                                           handler: ClaimedUnit -> Ending)
    requires forall i, j :: 0 <= i < j < |claimed| ==> Units(claimed)[i] != Units(claimed)[j]
    requires forall c :: c in claimed ==> JustClaimed(start, db, now, owner, policy.claimGrace, c)
    requires db.plan == start.plan && db.attempts == start.attempts && db.dispatch == start.dispatch && db.units.Keys == start.units.Keys
    requires forall u :: u in start.units && u !in Units(claimed) ==> db.units[u] == start.units[u]
    ensures PollProgress(start, db, now, owner, policy, claimed, 0, handler)
  {
    forall j | 0 <= j < |claimed| ensures StillOpen(start, db, now, owner, policy.claimGrace, claimed[j]) {
      assert claimed[j] in claimed;
    }
  }

  /** Carrying out one claim of the poll moves nothing of anybody else. */
  lemma {:induction false} TheirsAlone(start: Db, db: Db, d: Db, policy: Policy, claimed: seq<ClaimedUnit>, i: nat, end: Ending)
    requires i < |claimed| && OnlyTheirs(start, db, claimed) && CarriedOut(db, d, end.at, policy, claimed[i], end.result)
    ensures OnlyTheirs(start, d, claimed)
  {
    var c := claimed[i];
    assert c in claimed && c.unit in Units(claimed) by {
      assert Units(claimed)[i] == c.unit;
    }
    forall id | id in d.attempts && id !in start.attempts ensures IsOf(id, claimed) {
      assert id in db.attempts ==> IsOf(id, claimed);
    }
  }

  lemma {:induction false} LandsNow(start: Db, db: Db, d: Db, now: int, owner: InstanceId, policy: Policy, c: ClaimedUnit, end: Ending)
    requires StillOpen(start, db, now, owner, policy.claimGrace, c) && CarriedOut(db, d, end.at, policy, c, end.result)
    requires forall id :: id in start.attempts ==> id in db.attempts && db.attempts[id] == start.attempts[id]
    ensures HasLanded(start, d, now, owner, policy, c, end)
  {
  }

  /** What one claim of the poll did, the other claims do not see. */
  lemma {:induction false} OthersStay(start: Db, db: Db, d: Db, now: int, owner: InstanceId, policy: Policy, c: ClaimedUnit, end: Ending,
                                      other: ClaimedUnit, ended: Ending)
    requires CarriedOut(db, d, end.at, policy, c, end.result) && other.unit != c.unit
    ensures HasLanded(start, db, now, owner, policy, other, ended) ==> HasLanded(start, d, now, owner, policy, other, ended)
    ensures StillOpen(start, db, now, owner, policy.claimGrace, other) ==> StillOpen(start, d, now, owner, policy.claimGrace, other)
  {
  }

  /** A poll that met the tables as it left them goes on. */
  lemma {:induction false} PollContinues(start: Db, db: Db, now: int, owner: InstanceId, policy: Policy, claimed: seq<ClaimedUnit>, i: nat,
                      handler: ClaimedUnit -> Ending)
    requires i < |claimed| && PollProgress(start, db, now, owner, policy, claimed, i, handler)
    ensures var c := claimed[i];
            var (d, raised) := Execution(db, handler(c).at, policy, c, handler(c).result);
            raised.None? && PollProgress(start, d, now, owner, policy, claimed, i + 1, handler)
  {
    var c := claimed[i];
    var d := Execution(db, handler(c).at, policy, c, handler(c).result).0;
    assert StillOpen(start, db, now, owner, policy.claimGrace, c);
    ExecutionLands(db, handler(c).at, policy, c, handler(c).result);
    TheirsAlone(start, db, d, policy, claimed, i, handler(c));
    LandsNow(start, db, d, now, owner, policy, c, handler(c));
    forall j | 0 <= j < |claimed| && j != i
      ensures j < i ==> HasLanded(start, d, now, owner, policy, claimed[j], handler(claimed[j]))
      ensures i < j ==> StillOpen(start, d, now, owner, policy.claimGrace, claimed[j])
    {
      OthersStay(start, db, d, now, owner, policy, c, handler(c), claimed[j], handler(claimed[j]));
    }
  }

  lemma {:induction false} UndisturbedLeft(start: Db, policy: Policy, claimed: seq<ClaimedUnit>, i: nat,
                                           handler: ClaimedUnit -> Ending, others: (nat, Db) -> Db)
    requires Undisturbed(others) && i < |claimed|
    ensures var db, c := LeftBy(start, policy, claimed, i, handler, others), claimed[i];
            && MetBy(start, policy, claimed, i, handler, others) == db
            && LeftBy(start, policy, claimed, i + 1, handler, others) == Execution(db, handler(c).at, policy, c, handler(c).result).0
  {
    var db := LeftBy(start, policy, claimed, i, handler, others);
    assert others(i, db) == db;
  }

  lemma {:induction false} NextStillHeld(before: Db, db: Db, now: int, owner: InstanceId, policy: Policy, claimed: seq<ClaimedUnit>, i: nat,
                                         handler: ClaimedUnit -> Ending)
    requires i < |claimed| && PollProgress(before, db, now, owner, policy, claimed, i, handler)
    ensures HoldsToken(db, claimed[i].unit, claimed[i].token)
  {
    assert StillOpen(before, db, now, owner, policy.claimGrace, claimed[i]);
  }

  predicate Follows(db: Db, d: Db, policy: Policy, c: ClaimedUnit, end: Ending) {
    d == Execution(db, end.at, policy, c, end.result).0
  }

  lemma {:induction false} UndisturbedStep(before: Db, db: Db, d: Db, now: int, owner: InstanceId, policy: Policy, claimed: seq<ClaimedUnit>,
                                           i: nat, handler: ClaimedUnit -> Ending)
    requires i < |claimed| && PollProgress(before, db, now, owner, policy, claimed, i, handler)
    requires Follows(db, d, policy, claimed[i], handler(claimed[i]))
    ensures PollProgress(before, d, now, owner, policy, claimed, i + 1, handler)
  {
    PollContinues(before, db, now, owner, policy, claimed, i, handler);
  }

  /** A poll that meets the tables as it left them progresses from claim to claim. */
  lemma {:induction false} UndisturbedProgress(before: Db, dbs: seq<Db>, now: int, owner: InstanceId, policy: Policy,
                                               claimed: seq<ClaimedUnit>, i: nat, handler: ClaimedUnit -> Ending)
    requires |dbs| == |claimed| + 1 && PollProgress(before, dbs[0], now, owner, policy, claimed, 0, handler)
    requires forall j :: 0 <= j < |claimed| ==> Follows(dbs[j], dbs[j + 1], policy, claimed[j], handler(claimed[j]))
    requires i <= |claimed|
    ensures PollProgress(before, dbs[i], now, owner, policy, claimed, i, handler)
  {
    if i > 0 {
      UndisturbedProgress(before, dbs, now, owner, policy, claimed, i - 1, handler);
      UndisturbedStep(before, dbs[i - 1], dbs[i], now, owner, policy, claimed, i - 1, handler);
    }
  }

  /** The tables an undisturbed poll leaves, claim by claim. */
  lemma {:induction false} UndisturbedTrace(start: Db, policy: Policy, claimed: seq<ClaimedUnit>, handler: ClaimedUnit -> Ending,
                                            others: (nat, Db) -> Db) returns (dbs: seq<Db>)
    requires Undisturbed(others)
    ensures |dbs| == |claimed| + 1 && dbs[0] == start
    ensures forall j :: 0 <= j < |claimed| ==> Follows(dbs[j], dbs[j + 1], policy, claimed[j], handler(claimed[j]))
    ensures forall j :: 0 <= j <= |claimed| ==> dbs[j] == LeftBy(start, policy, claimed, j, handler, others)
  {
    dbs := seq(|claimed| + 1, j requires 0 <= j <= |claimed| => LeftBy(start, policy, claimed, j, handler, others));
    forall j | 0 <= j < |claimed| ensures Follows(dbs[j], dbs[j + 1], policy, claimed[j], handler(claimed[j])) {
      UndisturbedLeft(start, policy, claimed, j, handler, others);
    }
  }

  lemma {:induction false} UndisturbedPoll(before: Db, start: Db, db: Db, now: int, owner: InstanceId, policy: Policy, claimed: seq<ClaimedUnit>,
                                           executed: nat, handler: ClaimedUnit -> Ending, others: (nat, Db) -> Db)
    requires GrantedBy(before, now, owner, policy.claimGrace, claimed)
    requires forall i, j :: 0 <= i < j < |claimed| ==> Units(claimed)[i] != Units(claimed)[j]
    requires start == ClaimAll(before, now, owner, Units(claimed), policy.claimGrace)
    requires Undisturbed(others) && PollEnds(start, db, policy, claimed, executed, handler, others)
    ensures executed == |claimed| && PollProgress(before, db, now, owner, policy, claimed, |claimed|, handler)
  {
    PollBegins(before, now, owner, policy, claimed, handler);
    var dbs := UndisturbedTrace(start, policy, claimed, handler, others);
    UndisturbedProgress(before, dbs, now, owner, policy, claimed, executed, handler);
    if executed < |claimed| {
      UndisturbedLeft(start, policy, claimed, executed, handler, others);
      NextStillHeld(before, dbs[executed], now, owner, policy, claimed, executed, handler);
    }
  }
}
