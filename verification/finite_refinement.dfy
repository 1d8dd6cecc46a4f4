/**
 The step system and the repository agree: read as tables, every event of the protocol is one repository
 transaction, with the same rows, the same misses and the same rollback of a stale token. So what holds of every
 run of the step system holds of the tables. Also the one place where the repository does less than its
 documentation says: a status write that may go back.
 */
module FiniteRefinement {
  import opened Wrappers
  import opened Retry
  import opened FiniteTables
  import opened FiniteProtocol
  import opened FiniteRuns

  /** The five tables of a protocol state. */
  function Tables(s: System): Db {
    Db(s.runs, map u | u in s.cells :: s.cells[u].spec, map u | u in s.cells :: s.cells[u].row, s.attempts, s.dispatch)
  }

  lemma SameRows(s: System, t: System, u: UnitId)
    requires u in s.cells && u in t.cells && t.cells == s.cells[u := t.cells[u]] && t.cells[u].spec == s.cells[u].spec
    ensures Tables(t).plan == Tables(s).plan
    ensures Tables(t).units == Tables(s).units[u := t.cells[u].row]
  {
  }

  lemma {:induction false} PlannedCells(cells: map<UnitId, Cell>, run: RunId, specs: seq<UnitSpec>, u: UnitId)
    requires u in PlanCells(cells, run, specs)
    ensures u in cells || (u.run == run && exists i :: 0 <= i < |specs| && specs[i].key == u.key)
  {
    if specs != [] && u != UnitId(run, specs[|specs| - 1].key) {
      PlannedCells(cells, run, specs[..|specs| - 1], u);
    }
  }

  lemma DispatchesGrow(run: RunId, specs: seq<UnitSpec>)
    requires specs != []
    ensures FirstDispatches(run, specs) ==
            FirstDispatches(run, specs[..|specs| - 1]) + {FirstDispatch(UnitId(run, specs[|specs| - 1].key))}
  {
    var n := |specs| - 1;
    forall k | k in FirstDispatches(run, specs)
      ensures k in FirstDispatches(run, specs[..n]) + {FirstDispatch(UnitId(run, specs[n].key))}
    {
      var i :| 0 <= i < |specs| && k == FirstDispatch(UnitId(run, specs[i].key));
      assert i < n ==> specs[..n][i] == specs[i];
    }
    forall k | k in FirstDispatches(run, specs[..n]) ensures k in FirstDispatches(run, specs) {
      var i :| 0 <= i < n && k == FirstDispatch(UnitId(run, specs[..n][i].key));
      assert specs[i] == specs[..n][i];
    }
  }

  function WithPlan(s: System, run: RunId, specs: seq<UnitSpec>): System {
    s.(cells := PlanCells(s.cells, run, specs), dispatch := s.dispatch + FirstDispatches(run, specs))
  }

  lemma PersistOne(s: System, t: System, run: RunId, spec: UnitSpec)
    requires UnitId(run, spec.key) !in s.cells
    requires t == s.(cells := s.cells[UnitId(run, spec.key) := FreshCell(spec)], dispatch := s.dispatch + {FirstDispatch(UnitId(run, spec.key))})
    ensures PersistUnit(Tables(s), run, spec) == Tables(t)
  {
  }

  lemma LastIsNew(s: System, run: RunId, specs: seq<UnitSpec>)
    requires specs != [] && DistinctKeys(specs) && !Planned(s, run)
    ensures UnitId(run, specs[|specs| - 1].key) !in PlanCells(s.cells, run, specs[..|specs| - 1])
  {
    var u := UnitId(run, specs[|specs| - 1].key);
    if u in PlanCells(s.cells, run, specs[..|specs| - 1]) {
      PlannedCells(s.cells, run, specs[..|specs| - 1], u);
    }
  }

  lemma {:induction false} PlanIsPersist(s: System, run: RunId, specs: seq<UnitSpec>)
    requires DistinctKeys(specs) && !Planned(s, run)
    ensures PersistUnits(Tables(s), run, specs) == Tables(WithPlan(s, run, specs))
  {
    if specs == [] {
      assert FirstDispatches(run, specs) == {};
    } else {
      var n := |specs| - 1;
      PlanIsPersist(s, run, specs[..n]);
      LastIsNew(s, run, specs);
      DispatchesGrow(run, specs);
      PersistOne(WithPlan(s, run, specs[..n]), WithPlan(s, run, specs), run, specs[n]);
    }
  }

  lemma {:induction false} PlanRefines(s: System, run: RunId, specs: seq<UnitSpec>)
    ensures Tables(Step(s, Plan(run, specs))) == PlanRun(Tables(s), run, specs).0
  {
    assert HasPlan(Tables(s), run) <==> Planned(s, run);
    if run in s.runs && DistinctKeys(specs) && !Planned(s, run) {
      PlanIsPersist(s, run, specs);
    }
  }

  lemma UnitStepIs(s: System, u: UnitId, a: Action)
    requires u in s.cells && Enabled(s, u, a) && !a.Record? && !a.Finalize?
    ensures var t := Step(s, OnUnit(u, a));
            && t.cells == s.cells[u := CellStep(s.now, s.policy, s.cells[u], a)]
            && t.runs == s.runs && t.attempts == s.attempts && t.dispatch == s.dispatch
  {
  }

  lemma ClaimStored(s: System, u: UnitId, owner: InstanceId, ahead: seq<ClaimKey>)
    requires u in s.cells && RowDue(s.now, s.cells[u].row) && Queues(s, ahead)
    ensures Tables(Step(s, OnUnit(u, Claim(owner, ahead)))) == ClaimUnit(Tables(s), s.now, owner, u, s.policy.claimGrace).0
  {
    var t := Step(s, OnUnit(u, Claim(owner, ahead)));
    UnitStepIs(s, u, Claim(owner, ahead));
    assert t.cells[u] == CellClaim(s.now, s.policy, s.cells[u], owner, ahead);
    SameRows(s, t, u);
    assert Due(Tables(s), s.now, u);
  }

  lemma ClaimGranted(s: System, u: UnitId, owner: InstanceId, ahead: seq<ClaimKey>)
    requires u in s.cells && RowDue(s.now, s.cells[u].row) && Queues(s, ahead)
    ensures var s' := Step(s, OnUnit(u, Claim(owner, ahead)));
            var (d, c) := ClaimUnit(Tables(s), s.now, owner, u, s.policy.claimGrace);
            && Tables(s') == d && c.Some? && u in s'.cells && c.value.token in s'.cells[u].tasks
            && s'.cells[u].tasks[c.value.token] == Task(c.value.spec, c.value.attempt, ahead, Holding)
  {
    ClaimStored(s, u, owner, ahead);
    assert Due(Tables(s), s.now, u);
  }

  lemma {:induction false} ClaimRefines(s: System, u: UnitId, owner: InstanceId, ahead: seq<ClaimKey>)
    requires Queues(s, ahead)
    ensures var s' := Step(s, OnUnit(u, Claim(owner, ahead)));
            var (d, c) := ClaimUnit(Tables(s), s.now, owner, u, s.policy.claimGrace);
            && Tables(s') == d
            && (c.Some? ==>
                && u in s'.cells && c.value.token in s'.cells[u].tasks
                && s'.cells[u].tasks[c.value.token] == Task(c.value.spec, c.value.attempt, ahead, Holding))
  {
    if u in s.cells && RowDue(s.now, s.cells[u].row) {
      ClaimGranted(s, u, owner, ahead);
    } else {
      assert !Due(Tables(s), s.now, u);
      assert u in s.cells ==> s.cells[u := s.cells[u]] == s.cells;
      assert Step(s, OnUnit(u, Claim(owner, ahead))) == s;
    }
  }

  lemma {:induction false} RecordRefines(s: System, u: UnitId, token: nat)
    requires u in s.cells && Writing(s.cells[u], token)
    ensures var t := s.cells[u].tasks[token];
            var r := CompleteAttempt(Tables(s), u, token, t.attempt, t.stage.outcome, t.stage.result, t.stage.error, t.stage.retryAt);
            Tables(Step(s, OnUnit(u, Record(token)))) == if r.Success? then r.value else Tables(s)
  {
    SameRows(s, Step(s, OnUnit(u, Record(token))), u);
  }

  lemma {:induction false} BuryRefines(s: System, u: UnitId, token: nat)
    requires u in s.cells && Doing(s.cells[u], token, DeadLettering)
    ensures var r := DeadLetter(Tables(s), u, token);
            Tables(Step(s, OnUnit(u, Bury(token)))) == if r.Success? then r.value else Tables(s)
  {
    SameRows(s, Step(s, OnUnit(u, Bury(token))), u);
  }

  lemma SameVerdict(s: System, run: RunId)
    ensures Finalized(s, run) == FinalizeRun(Tables(s), run).runs
  {
    var db := Tables(s);
    assert Done(s, run) <==> AllClosed(db, run);
    if HasDead(s, run) {
      var v :| v in s.cells && v.run == run && s.cells[v].row.status.DeadLettered?;
      assert v in db.units && db.units[v].status.DeadLettered?;
    }
    if AnyDead(db, run) {
      var v :| v in db.units && v.run == run && db.units[v].status.DeadLettered?;
      assert v in s.cells && s.cells[v].row.status.DeadLettered?;
    }
  }

  lemma {:induction false} FinalizeRefines(s: System, u: UnitId, token: nat)
    requires u in s.cells && Doing(s.cells[u], token, Finalizing)
    ensures Tables(Step(s, OnUnit(u, Finalize(token)))) == FinalizeRun(Tables(s), u.run)
  {
    var s' := Step(s, OnUnit(u, Finalize(token)));
    SameRows(s, s', u);
    SameVerdict(s, u.run);
    assert Tables(s').units == Tables(s).units;
  }

  lemma {:induction false} EnqueueRefines(s: System, u: UnitId)
    ensures Tables(Step(s, Enqueue(u))) == EnqueueRetry(Tables(s), s.now, u)
  {
  }

  lemma RunRowsRefine(s: System, run: RunId, revision: RevisionId)
    ensures Tables(Step(s, Submit(run, revision))) == SubmitRun(Tables(s), run, revision)
    ensures var r := TransitionRun(Tables(s), run, RunCancelled);
            Tables(Step(s, CancelRun(run))) == if r.Success? then r.value else Tables(s)
  {
  }

  // ---- whole runs ----

  /** The transactions the repository commits, and the operator's put-back. */
  datatype Transaction =
    | SubmitTx(run: RunId, revision: RevisionId)
    | PlanTx(run: RunId, specs: seq<UnitSpec>)
    | CancelTx(run: RunId)
    | EnqueueTx(at: int, unit: UnitId)
    | ClaimTx(at: int, owner: InstanceId, unit: UnitId)
    | CompleteTx(unit: UnitId, token: nat, attempt: nat, outcome: Outcome, result: Option<Json>, error: Option<Json>, retryAt: Option<int>)
    | DeadLetterTx(unit: UnitId, token: nat)
    | FinalizeTx(run: RunId)
    | PutBackTx(at: int, unit: UnitId)

  /** What was committed; a transaction that raises is rolled back. */
  function Committed(db: Db, r: Result<Db, StoreError>): Db {
    if r.Success? then r.value else db
  }

  function PutBackUnit(db: Db, now: int, u: UnitId): Db {
    if u in db.units && db.units[u].status.Running? then db.(units := db.units[u := PutBackRow(now, db.units[u])]) else db
  }

  function Commit(db: Db, grace: int, tx: Transaction): Db {
    match tx
    case SubmitTx(run, revision) => SubmitRun(db, run, revision)
    case PlanTx(run, specs) => PlanRun(db, run, specs).0
    case CancelTx(run) => Committed(db, TransitionRun(db, run, RunCancelled))
    case EnqueueTx(at, u) => EnqueueRetry(db, at, u)
    case ClaimTx(at, owner, u) => ClaimUnit(db, at, owner, u, grace).0
    case CompleteTx(u, token, attempt, outcome, result, error, retryAt) =>
      Committed(db, CompleteAttempt(db, u, token, attempt, outcome, result, error, retryAt))
    case DeadLetterTx(u, token) => Committed(db, DeadLetter(db, u, token))
    case FinalizeTx(run) => FinalizeRun(db, run)
    case PutBackTx(at, u) => PutBackUnit(db, at, u)
  }

  function CommitAll(db: Db, grace: int, txs: seq<Transaction>): Db {
    if txs == [] then db else Commit(CommitAll(db, grace, txs[..|txs| - 1]), grace, txs[|txs| - 1])
  }

  /** The transaction an action commits: ending a handler, dying and waiting for the turn commit none. */
  function ActionTx(s: System, u: UnitId, a: Action): Option<Transaction>
    requires u in s.cells
  {
    var c := s.cells[u];
    match a
    case Claim(owner, ahead) => Some(ClaimTx(s.now, owner, u))
    case Record(token) =>
      if Writing(c, token)
      then var t := c.tasks[token];
           Some(CompleteTx(u, token, t.attempt, t.stage.outcome, t.stage.result, t.stage.error, t.stage.retryAt))
      else None
    case Bury(token) => if Doing(c, token, DeadLettering) then Some(DeadLetterTx(u, token)) else None
    case Finalize(token) => if Doing(c, token, Finalizing) then Some(FinalizeTx(u.run)) else None
    case PutBack => Some(PutBackTx(s.now, u))
    case Finish(_, _) => None
    case Drop(_) => None
  }

  function EventTx(s: System, e: Event): Option<Transaction> {
    match e
    case Advance(_) => None
    case Submit(run, revision) => Some(SubmitTx(run, revision))
    case Plan(run, specs) => Some(PlanTx(run, specs))
    case CancelRun(run) => Some(CancelTx(run))
    case Enqueue(u) => Some(EnqueueTx(s.now, u))
    case OnUnit(u, a) => if u in s.cells && Enabled(s, u, a) then ActionTx(s, u, a) else None
  }

  /** The transactions of a run, in the order they are committed. */
  function Transactions(s: System, es: seq<Event>): seq<Transaction> {
    if es == [] then []
    else
      var n := |es| - 1;
      var tx := EventTx(Run(s, es[..n]), es[n]);
      Transactions(s, es[..n]) + if tx.Some? then [tx.value] else []
  }

  /** What only the worker itself sees leaves the tables as they are. */
  lemma LocalActions(s: System, u: UnitId, a: Action)
    requires u in s.cells && Enabled(s, u, a) && ActionTx(s, u, a).None?
    ensures Tables(Step(s, OnUnit(u, a))) == Tables(s)
  {
    var t := Step(s, OnUnit(u, a));
    assert t.cells == s.cells[u := t.cells[u]];
    SameRows(s, t, u);
    assert Tables(s).units[u := s.cells[u].row] == Tables(s).units;
  }

  lemma PutBackRefines(s: System, u: UnitId)
    requires u in s.cells
    ensures Tables(Step(s, OnUnit(u, PutBack))) == PutBackUnit(Tables(s), s.now, u)
  {
    var t := Step(s, OnUnit(u, PutBack));
    SameRows(s, t, u);
    assert Tables(s).units[u := s.cells[u].row] == Tables(s).units;
  }

  ghost predicate Commits(s: System, u: UnitId, a: Action)
    requires u in s.cells && ActionTx(s, u, a).Some?
  {
    Tables(Step(s, OnUnit(u, a))) == Commit(Tables(s), s.policy.claimGrace, ActionTx(s, u, a).value)
  }

  lemma ClaimCommits(s: System, u: UnitId, owner: InstanceId, ahead: seq<ClaimKey>)
    requires u in s.cells && Queues(s, ahead)
    ensures Commits(s, u, Claim(owner, ahead))
  {
    ClaimRefines(s, u, owner, ahead);
  }

  lemma RecordCommits(s: System, u: UnitId, token: nat)
    requires u in s.cells && Writing(s.cells[u], token)
    ensures Commits(s, u, Record(token))
  {
    RecordRefines(s, u, token);
  }

  lemma BuryCommits(s: System, u: UnitId, token: nat)
    requires u in s.cells && Doing(s.cells[u], token, DeadLettering)
    ensures Commits(s, u, Bury(token))
  {
    BuryRefines(s, u, token);
  }

  lemma FinalizeCommits(s: System, u: UnitId, token: nat)
    requires u in s.cells && Doing(s.cells[u], token, Finalizing)
    ensures Commits(s, u, Finalize(token))
  {
    FinalizeRefines(s, u, token);
  }

  lemma ActionIsATransaction(s: System, u: UnitId, a: Action)
    requires u in s.cells && Enabled(s, u, a) && ActionTx(s, u, a).Some?
    ensures Commits(s, u, a)
  {
    match a
    case Claim(owner, ahead) => ClaimCommits(s, u, owner, ahead);
    case Record(token) => RecordCommits(s, u, token);
    case Bury(token) => BuryCommits(s, u, token);
    case Finalize(token) => FinalizeCommits(s, u, token);
    case PutBack => PutBackRefines(s, u);
  }

  lemma EventIsATransaction(s: System, e: Event)
    ensures Tables(Step(s, e)) ==
            if EventTx(s, e).Some? then Commit(Tables(s), s.policy.claimGrace, EventTx(s, e).value) else Tables(s)
  {
    match e
    case Advance(_) =>
    case Submit(run, revision) => RunRowsRefine(s, run, revision);
    case Plan(run, specs) => PlanRefines(s, run, specs);
    case CancelRun(run) => RunRowsRefine(s, run, "");
    case Enqueue(u) => EnqueueRefines(s, u);
    case OnUnit(u, a) =>
      if u in s.cells && Enabled(s, u, a) {
        if ActionTx(s, u, a).Some? {
          ActionIsATransaction(s, u, a);
        } else {
          LocalActions(s, u, a);
        }
      }
  }

  lemma {:induction false} PolicyStays(s: System, es: seq<Event>)
    ensures Run(s, es).policy == s.policy
  {
    if es != [] {
      PolicyStays(s, es[..|es| - 1]);
    }
  }

  /**
   The tables after any run of the step system are what the repository makes of empty tables by committing, one
   after the other, the transactions of that run; what the run does in between, no table shows.
   */
  lemma {:induction false} RunsAreTransactions(policy: Policy, es: seq<Event>)
    ensures Tables(Run(Init(policy), es)) == CommitAll(EmptyDb, policy.claimGrace, Transactions(Init(policy), es))
  {
    if es == [] {
      assert Tables(Init(policy)) == EmptyDb;
    } else {
      var n := |es| - 1;
      RunsAreTransactions(policy, es[..n]);
      PolicyStays(Init(policy), es[..n]);
      EventIsATransaction(Run(Init(policy), es[..n]), es[n]);
      var txs := Transactions(Init(policy), es[..n]);
      var tx := EventTx(Run(Init(policy), es[..n]), es[n]);
      if tx.Some? {
        assert (txs + [tx.value])[..|txs|] == txs;
      } else {
        assert Transactions(Init(policy), es) == txs;
      }
    }
  }

  // ---- a poll ----

  /** The claims a poll makes, in claim order. */
  function PollKeys(s: System, us: seq<UnitId>): (ks: seq<ClaimKey>)
    requires forall u :: u in us ==> u in s.cells
    ensures |ks| == |us| && forall i :: 0 <= i < |us| ==> ks[i] == ClaimKey(us[i], s.cells[us[i]].row.claimToken + 1)
  {
    seq(|us|, i requires 0 <= i < |us| => ClaimKey(us[i], s.cells[us[i]].row.claimToken + 1))
  }

  /** The poll as events: each claim is made behind those before it. */
  function PollEvents(s: System, owner: InstanceId, us: seq<UnitId>): seq<Event>
    requires forall u :: u in us ==> u in s.cells
  {
    if us == [] then []
    else
      var n := |us| - 1;
      PollEvents(s, owner, us[..n]) + [OnUnit(us[n], Claim(owner, PollKeys(s, us[..n])))]
  }

  /** Every claim is held as claimed, behind those before it. */
  ghost predicate Queued(t: System, ks: seq<ClaimKey>) {
    ks == [] ||
    var last, front := ks[|ks| - 1], ks[..|ks| - 1];
    Queued(t, front) && AsClaimed(t, last) && t.cells[last.unit].tasks[last.token].ahead == front
  }

  ghost predicate Polled(s: System, t: System, owner: InstanceId, us: seq<UnitId>)
    requires forall u :: u in us ==> u in s.cells
  {
    && Tables(t) == ClaimAll(Tables(s), s.now, owner, us, s.policy.claimGrace)
    && t.now == s.now && t.policy == s.policy && t.cells.Keys == s.cells.Keys
    && (forall v :: v in s.cells && v !in us ==> t.cells[v] == s.cells[v])
    && Queued(t, PollKeys(s, us))
  }

  lemma {:induction false} QueuedIsClaimed(t: System, ks: seq<ClaimKey>)
    requires Queued(t, ks)
    ensures forall i :: 0 <= i < |ks| ==> AsClaimed(t, ks[i])
  {
    if ks != [] {
      var n := |ks| - 1;
      QueuedIsClaimed(t, ks[..n]);
      forall i | 0 <= i < |ks| ensures AsClaimed(t, ks[i]) {
        assert i < n ==> ks[..n][i] == ks[i];
      }
    }
  }

  /** An action on another unit leaves the claims as they were. */
  lemma {:induction false} QueuedStays(t: System, t': System, ks: seq<ClaimKey>, u: UnitId)
    requires Queued(t, ks) && forall k :: k in ks ==> k.unit != u
    requires forall v :: v in t.cells && v != u ==> v in t'.cells && t'.cells[v] == t.cells[v]
    ensures Queued(t', ks)
  {
    if ks != [] {
      var last := ks[|ks| - 1];
      assert last in ks;
      QueuedStays(t, t', ks[..|ks| - 1], u);
    }
  }

  /** One claim of the poll, behind these. */
  ghost predicate Polls(t: System, t': System, u: UnitId, owner: InstanceId, ks: seq<ClaimKey>)
    requires u in t.cells
  {
    && Tables(t') == ClaimUnit(Tables(t), t.now, owner, u, t.policy.claimGrace).0
    && t'.now == t.now && t'.policy == t.policy && t'.cells.Keys == t.cells.Keys
    && (forall v :: v in t.cells && v != u ==> t'.cells[v] == t.cells[v])
    && AsClaimed(t', ClaimKey(u, t.cells[u].row.claimToken + 1))
    && t'.cells[u].tasks[t.cells[u].row.claimToken + 1].ahead == ks
  }

  lemma PollsNow(t: System, u: UnitId, owner: InstanceId, ks: seq<ClaimKey>)
    requires u in t.cells && RowDue(t.now, t.cells[u].row) && Queues(t, ks)
    ensures Polls(t, Step(t, OnUnit(u, Claim(owner, ks))), u, owner, ks)
  {
    ClaimGranted(t, u, owner, ks);
  }

  lemma PolledFirst(s: System, us: seq<UnitId>)
    requires us != [] && forall u :: u in us ==> u in s.cells
    requires us[|us| - 1] !in us[..|us| - 1]
    ensures PollKeys(s, us)[..|us| - 1] == PollKeys(s, us[..|us| - 1])
    ensures forall k :: k in PollKeys(s, us[..|us| - 1]) ==> k.unit != us[|us| - 1]
  {
  }

  lemma QueuedOneMore(s: System, t: System, t': System, owner: InstanceId, us: seq<UnitId>)
    requires us != [] && us[|us| - 1] !in us[..|us| - 1] && forall u :: u in us ==> u in s.cells
    requires us[|us| - 1] in t.cells && t.cells[us[|us| - 1]] == s.cells[us[|us| - 1]]
    requires Queued(t, PollKeys(s, us[..|us| - 1]))
    requires Polls(t, t', us[|us| - 1], owner, PollKeys(s, us[..|us| - 1]))
    ensures Queued(t', PollKeys(s, us))
  {
    PolledFirst(s, us);
    QueuedStays(t, t', PollKeys(s, us[..|us| - 1]), us[|us| - 1]);
  }

  lemma ClaimAllLast(start: Db, mid: Db, db: Db, now: int, owner: InstanceId, us: seq<UnitId>, grace: int)
    requires us != [] && mid == ClaimAll(start, now, owner, us[..|us| - 1], grace)
    requires db == ClaimUnit(mid, now, owner, us[|us| - 1], grace).0
    ensures db == ClaimAll(start, now, owner, us, grace)
  {
  }

  lemma PollOneMore(s: System, t: System, t': System, owner: InstanceId, us: seq<UnitId>)
    requires us != [] && forall u :: u in us ==> u in s.cells
    requires Polled(s, t, owner, us[..|us| - 1]) && Queued(t', PollKeys(s, us))
    requires us[|us| - 1] in t.cells && Polls(t, t', us[|us| - 1], owner, PollKeys(s, us[..|us| - 1]))
    ensures Polled(s, t', owner, us)
  {
    ClaimAllLast(Tables(s), Tables(t), Tables(t'), s.now, owner, us, s.policy.claimGrace);
    assert forall v :: v !in us ==> v !in us[..|us| - 1] && v != us[|us| - 1];
  }

  /**
   A poll is one transaction over the tables, and the same as its claims made one after the other, each behind those
   before it: so the worker holds exactly the claims it was handed, in claim order.
   */
  lemma {:induction false} PollIsARun(s: System, owner: InstanceId, us: seq<UnitId>)
    requires forall u :: u in us ==> u in s.cells && RowDue(s.now, s.cells[u].row)
    requires forall i, j :: 0 <= i < j < |us| ==> us[i] != us[j]
    ensures Polled(s, Run(s, PollEvents(s, owner, us)), owner, us)
  {
    if us != [] {
      var n := |us| - 1;
      PollIsARun(s, owner, us[..n]);
      var es, e := PollEvents(s, owner, us[..n]), OnUnit(us[n], Claim(owner, PollKeys(s, us[..n])));
      assert (es + [e])[..|es|] == es;
      var t := Run(s, es);
      assert us[n] in us && t.cells[us[n]] == s.cells[us[n]];
      QueuedIsClaimed(t, PollKeys(s, us[..n]));
      PollsNow(t, us[n], owner, PollKeys(s, us[..n]));
      QueuedOneMore(s, t, Step(t, e), owner, us);
      PollOneMore(s, t, Step(t, e), owner, us);
    }
  }

  // ---- where the code and its documentation part ----

  /**
   transition_run is documented as forward-only but writes whatever it is given: the write goes forward exactly
   when the caller asks for a status of no lower rank.
   */
  lemma {:induction false} TransitionIsForwardOnlyIfAsked(db: Db, run: RunId, status: RunStatus)
    requires run in db.runs
    ensures TransitionRun(db, run, status).Success?
    ensures Rank(db.runs[run].status) <= Rank(TransitionRun(db, run, status).value.runs[run].status) <==>
            Rank(db.runs[run].status) <= Rank(status)
  {
  }

  /** For instance a succeeded run can be made pending again. */
  lemma {:induction false} TransitionCanGoBack()
    ensures var db := EmptyDb.(runs := map["run:1" := RunRow(RunSucceeded, "v1")]);
            TransitionRun(db, "run:1", RunPending) == Success(EmptyDb.(runs := map["run:1" := RunRow(RunPending, "v1")]))
  {
    assert map["run:1" := RunRow(RunSucceeded, "v1")]["run:1" := RunRow(RunPending, "v1")] == map["run:1" := RunRow(RunPending, "v1")];
  }
}
