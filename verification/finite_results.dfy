/**
 What a client reads back (state/finite.py `results`): exactly what the handlers returned, and for the range-sum
 product exactly how far the total of a succeeded run is from the sum of its range.
 */
module FiniteResults {
  import opened Wrappers
  import opened Retry
  import opened FiniteTables
  import opened FiniteProtocol
  import opened FiniteUnits
  import opened FiniteHistory
  import opened FiniteRuns
  import opened FiniteRefinement
  import opened RangeSum

  /** What the handler returns for each unit: its JSON text, or `None` for a handler that returns nothing. */
  type Answers = UnitId -> Option<Json>

  predicate Honest(e: Event, run: RunId, answer: Answers) {
    e.OnUnit? && e.unit.run == run && e.action.Finish? && e.action.handler.Returned? ==> e.action.handler.result == answer(e.unit)
  }

  /** Only a success carries a result, and it is the handler's. */
  predicate StageAnswers(stage: Stage, a: Option<Json>) {
    stage.Recording? ==> stage.result == if stage.outcome.OutcomeSucceeded? then a else None
  }

  ghost predicate CellAnswers(c: Cell, a: Option<Json>) {
    && c.row.result == (if c.row.status.Succeeded? then a else None)
    && forall token :: token in c.tasks ==> StageAnswers(c.tasks[token].stage, a)
  }

  lemma DecisionAnswers(now: int, policy: Policy, spec: UnitSpec, attempt: nat, h: HandlerResult, a: Option<Json>)
    requires h.Returned? ==> h.result == a
    ensures StageAnswers(Decide(now, policy, spec, attempt, h), a)
  {
  }

  lemma CellAnswersStep(now: int, policy: Policy, c: Cell, act: Action, a: Option<Json>)
    requires Fenced(c) && CellAnswers(c, a)
    requires act.Finish? && act.handler.Returned? ==> act.handler.result == a
    ensures CellAnswers(CellStep(now, policy, c, act), a)
  {
    if act.Finish? && act.token in c.tasks {
      DecisionAnswers(now, policy, c.tasks[act.token].spec, c.tasks[act.token].attempt, act.handler, a);
    }
    if (act.Record? || act.Bury?) && act.token in c.tasks {
      assert TaskOk(c, act.token) && StageAnswers(c.tasks[act.token].stage, a);
    }
  }

  ghost predicate RunAnswers(s: System, run: RunId, answer: Answers) {
    forall u :: u in s.cells && u.run == run ==> CellAnswers(s.cells[u], answer(u))
  }

  lemma {:induction false} RunAnswersStep(s: System, e: Event, run: RunId, answer: Answers)
    requires UnitInv(s) && RunAnswers(s, run, answer) && Honest(e, run, answer)
    ensures RunAnswers(Step(s, e), run, answer)
  {
    StepIsLocal(s, e);
    forall u | u in Step(s, e).cells && u.run == run ensures CellAnswers(Step(s, e).cells[u], answer(u)) {
      if u in s.cells && Names(s, e, u) {
        assert CellOk(s, u);
        CellAnswersStep(s.now, s.policy, s.cells[u], e.action, answer(u));
      }
    }
  }

  lemma {:induction false} ReachableAnswers(policy: Policy, es: seq<Event>, run: RunId, answer: Answers)
    requires forall i :: 0 <= i < |es| ==> Honest(es[i], run, answer)
    ensures RunAnswers(Run(Init(policy), es), run, answer)
  {
    if es != [] {
      var n := |es| - 1;
      ReachableAnswers(policy, es[..n], run, answer);
      ReachableUnits(policy, es[..n]);
      RunAnswersStep(Run(Init(policy), es[..n]), es[n], run, answer);
    }
  }

  lemma {:induction false} ReadBack(db: Db, us: seq<UnitId>, answer: Answers)
    requires forall u :: u in us ==> u in db.units && db.units[u].result == answer(u)
    ensures ReadResults(db, us).Failure? <==> exists i :: 0 <= i < |us| && answer(us[i]).None?
    ensures var r := ReadResults(db, us);
            r.Success? ==> |r.value| == |us| && forall i :: 0 <= i < |us| ==> answer(us[i]) == Some(r.value[i])
  {
    if us != [] {
      var n := |us| - 1;
      assert us[n] in us && forall i :: 0 <= i < n ==> us[..n][i] == us[i];
      ReadBack(db, us[..n], answer);
    }
  }

  /**
   After any history the client reads exactly what the handlers returned for the succeeded units, in key order;
   and it raises if and only if one of them returned nothing, because what is stored for that is no JSON.
   */
  lemma {:induction false} ResultsAreTheAnswers(policy: Policy, es: seq<Event>, run: RunId, answer: Answers, us: seq<UnitId>)
    requires forall i :: 0 <= i < |es| ==> Honest(es[i], run, answer)
    requires SucceededInOrder(Tables(Run(Init(policy), es)), run, us)
    ensures var r := ReadResults(Tables(Run(Init(policy), es)), us);
            && (r.Failure? <==> exists i :: 0 <= i < |us| && answer(us[i]).None?)
            && (r.Success? ==> |r.value| == |us| && forall i :: 0 <= i < |us| ==> answer(us[i]) == Some(r.value[i]))
  {
    var s := Run(Init(policy), es);
    ReachableAnswers(policy, es, run, answer);
    forall u | u in us ensures Tables(s).units[u].result == answer(u) {
      assert CellAnswers(s.cells[u], answer(u));
    }
    ReadBack(Tables(s), us, answer);
  }

  // ---- totals ----

  function SumOf(us: seq<UnitId>, f: UnitId -> int): int {
    if us == [] then 0 else SumOf(us[..|us| - 1], f) + f(us[|us| - 1])
  }

  lemma {:induction false} SumWithout(us: seq<UnitId>, f: UnitId -> int, j: nat)
    requires j < |us|
    ensures SumOf(us, f) == SumOf(us[..j] + us[j + 1..], f) + f(us[j])
  {
    var n, rest := |us| - 1, us[..j] + us[j + 1..];
    if j < n {
      SumWithout(us[..n], f, j);
      assert us[..n][..j] + us[..n][j + 1..] == rest[..n - 1];
      assert rest[n - 1] == us[n];
    } else {
      assert rest == us[..n];
    }
  }

  predicate DistinctUnits(us: seq<UnitId>) {
    forall i, j :: 0 <= i < j < |us| ==> us[i] != us[j]
  }

  lemma WithoutOne(us: seq<UnitId>, j: nat)
    requires DistinctUnits(us) && j < |us|
    ensures var rest := us[..j] + us[j + 1..]; DistinctUnits(rest) && forall u :: u in rest <==> u in us && u != us[j]
  {
    var rest := us[..j] + us[j + 1..];
    assert forall i :: 0 <= i < |rest| ==> rest[i] == us[if i < j then i else i + 1];
    forall u | u in us && u != us[j] ensures u in rest {
      var i :| 0 <= i < |us| && us[i] == u;
      assert rest[if i < j then i else i - 1] == u;
    }
  }

  lemma SomeMember(us: seq<UnitId>)
    ensures us != [] ==> exists u :: u in us
  {
    if us != [] {
      assert us[0] in us;
    }
  }

  lemma SumOneMore(us: seq<UnitId>, u: UnitId, f: UnitId -> int)
    ensures SumOf(us + [u], f) == SumOf(us, f) + f(u)
  {
    assert (us + [u])[..|us|] == us;
  }

  /** The order of the units does not matter. */
  lemma {:induction false} SumIsOrderless(us: seq<UnitId>, vs: seq<UnitId>, f: UnitId -> int)
    requires DistinctUnits(us) && DistinctUnits(vs) && forall u :: u in us <==> u in vs
    ensures SumOf(us, f) == SumOf(vs, f)
  {
    if us == [] {
      SomeMember(vs);
    } else {
      var n := |us| - 1;
      assert us[n] in us && us[n] in vs;
      var j :| 0 <= j < |vs| && vs[j] == us[n];
      WithoutOne(us, n);
      WithoutOne(vs, j);
      assert us[..n] + us[n + 1..] == us[..n];
      SumIsOrderless(us[..n], vs[..j] + vs[j + 1..], f);
      SumWithout(vs, f, j);
    }
  }

  // ---- range sum ----

  function ChunkUnit(run: RunId, unit: SumUnit): UnitId {
    UnitId(run, unit.key)
  }

  function ChunkSum(unit: SumUnit): int {
    SumRange(unit.payload.start, unit.payload.end)
  }

  predicate Plans(run: RunId, plan: seq<SumUnit>, u: UnitId) {
    exists i :: 0 <= i < |plan| && u == ChunkUnit(run, plan[i])
  }

  lemma PlansOneMore(run: RunId, plan: seq<SumUnit>, u: UnitId)
    requires plan != []
    ensures Plans(run, plan, u) <==> Plans(run, plan[..|plan| - 1], u) || u == ChunkUnit(run, plan[|plan| - 1])
  {
    var n := |plan| - 1;
    if Plans(run, plan, u) && u != ChunkUnit(run, plan[n]) {
      var i :| 0 <= i < |plan| && u == ChunkUnit(run, plan[i]);
      assert plan[..n][i] == plan[i];
    }
    if Plans(run, plan[..n], u) {
      var i :| 0 <= i < n && u == ChunkUnit(run, plan[..n][i]);
      assert plan[i] == plan[..n][i];
    }
  }

  /** The units of the run are those of this plan. */
  ghost predicate HasUnits(s: System, run: RunId, plan: seq<SumUnit>) {
    forall u :: u in s.cells && u.run == run <==> Plans(run, plan, u)
  }

  predicate SumsChunk(run: RunId, unit: SumUnit, answer: Answers, value: Json -> int) {
    var a := answer(ChunkUnit(run, unit));
    a.Some? && value(a.value) == ChunkSum(unit)
  }

  /** The handler sums its chunk: read as a number, its answer is the chunk's sum. */
  predicate SumsChunks(run: RunId, plan: seq<SumUnit>, answer: Answers, value: Json -> int) {
    forall i :: 0 <= i < |plan| ==> SumsChunk(run, plan[i], answer, value)
  }

  /** What the cancelled units of a plan would have added. */
  function CancelledSum(s: System, run: RunId, plan: seq<SumUnit>): int {
    if plan == [] then 0
    else
      var u := ChunkUnit(run, plan[|plan| - 1]);
      CancelledSum(s, run, plan[..|plan| - 1]) +
      if u in s.cells && s.cells[u].row.status.Cancelled? then ChunkSum(plan[|plan| - 1]) else 0
  }

  /** The succeeded units of a plan, in plan order. */
  function SucceededOf(s: System, run: RunId, plan: seq<SumUnit>): seq<UnitId> {
    if plan == [] then []
    else
      var u := ChunkUnit(run, plan[|plan| - 1]);
      SucceededOf(s, run, plan[..|plan| - 1]) + if u in s.cells && s.cells[u].row.status.Succeeded? then [u] else []
  }

  function Value(answer: Answers, value: Json -> int): UnitId -> int {
    u => var a := answer(u); if a.Some? then value(a.value) else 0
  }

  lemma {:induction false} SucceededAt(s: System, run: RunId, plan: seq<SumUnit>)
    requires forall i, j :: 0 <= i < j < |plan| ==> plan[i].key != plan[j].key
    ensures DistinctUnits(SucceededOf(s, run, plan))
    ensures forall u :: u in SucceededOf(s, run, plan) <==> u in s.cells && s.cells[u].row.status.Succeeded? && Plans(run, plan, u)
  {
    if plan != [] {
      var n := |plan| - 1;
      assert forall i :: 0 <= i < n ==> plan[..n][i] == plan[i];
      SucceededAt(s, run, plan[..n]);
      LastIsNew(run, plan);
      forall u ensures Plans(run, plan, u) <==> Plans(run, plan[..n], u) || u == ChunkUnit(run, plan[n]) {
        PlansOneMore(run, plan, u);
      }
    }
  }

  lemma LastIsNew(run: RunId, plan: seq<SumUnit>)
    requires plan != [] && forall i, j :: 0 <= i < j < |plan| ==> plan[i].key != plan[j].key
    ensures !Plans(run, plan[..|plan| - 1], ChunkUnit(run, plan[|plan| - 1]))
  {
  }

  predicate Settled(s: System, u: UnitId) {
    u in s.cells && (s.cells[u].row.status.Succeeded? || s.cells[u].row.status.Cancelled?)
  }

  /** The last chunk either succeeded or would have been added. */
  lemma LastAdds(s: System, run: RunId, plan: seq<SumUnit>, answer: Answers, value: Json -> int)
    requires plan != [] && SumsChunk(run, plan[|plan| - 1], answer, value) && Settled(s, ChunkUnit(run, plan[|plan| - 1]))
    ensures var front, f := plan[..|plan| - 1], Value(answer, value);
            SumOf(SucceededOf(s, run, plan), f) + CancelledSum(s, run, plan) ==
            SumOf(SucceededOf(s, run, front), f) + CancelledSum(s, run, front) + ChunkSum(plan[|plan| - 1])
  {
    var earlier, u := SucceededOf(s, run, plan[..|plan| - 1]), ChunkUnit(run, plan[|plan| - 1]);
    SumOneMore(earlier, u, Value(answer, value));
    assert Value(answer, value)(u) == ChunkSum(plan[|plan| - 1]);
    assert earlier + [] == earlier;
  }

  /** Succeeded and cancelled chunks together make up the range. */
  lemma {:induction false} ChunksAddUp(s: System, run: RunId, plan: seq<SumUnit>, lo: int, hi: int, answer: Answers, value: Json -> int)
    requires Tiles(plan, lo, hi) && SumsChunks(run, plan, answer, value)
    requires forall i :: 0 <= i < |plan| ==> Settled(s, ChunkUnit(run, plan[i]))
    ensures SumOf(SucceededOf(s, run, plan), Value(answer, value)) + CancelledSum(s, run, plan) == SumRange(lo, hi)
  {
    if plan != [] {
      var n := |plan| - 1;
      TilesFront(plan, lo, hi);
      assert SumsChunk(run, plan[n], answer, value);
      ChunksAddUp(s, run, plan[..n], lo, plan[n].payload.start, answer, value);
      LastAdds(s, run, plan, answer, value);
      SumSplits(lo, plan[n].payload.start, hi);
    }
  }

  /** The sum of the numbers a client reads. */
  function TotalRead(results: seq<Json>, value: Json -> int): int {
    if results == [] then 0 else TotalRead(results[..|results| - 1], value) + value(results[|results| - 1])
  }

  lemma {:induction false} TotalIsTheSum(results: seq<Json>, us: seq<UnitId>, f: UnitId -> int, value: Json -> int)
    requires |results| == |us| && forall i :: 0 <= i < |us| ==> f(us[i]) == value(results[i])
    ensures TotalRead(results, value) == SumOf(us, f)
  {
    if us != [] {
      var n := |us| - 1;
      assert forall i :: 0 <= i < n ==> us[..n][i] == us[i] && results[..n][i] == results[i];
      TotalIsTheSum(results[..n], us[..n], f, value);
    }
  }

  /**
   Range sum on the repository. Let any workers, planners, dispatchers and clients interleave: what a client reads of a
   succeeded run always parses, and its total falls short of the sum of the range by exactly what the cancelled
   units would have added. So the total is right if and only if the chunks of the cancelled units add up to zero.
   */
  lemma {:induction false} TotalMissesTheCancelled(policy: Policy, es: seq<Event>, run: RunId, start: int, end: int,
                                                   answer: Answers, value: Json -> int, us: seq<UnitId>)
    requires forall i :: 0 <= i < |es| ==> Honest(es[i], run, answer)
    requires SumsChunks(run, Chunks(start, end), answer, value)
    requires var s := Run(Init(policy), es);
             && HasUnits(s, run, Chunks(start, end)) && run in s.runs && s.runs[run].status.RunSucceeded?
             && SucceededInOrder(Tables(s), run, us)
    ensures var s := Run(Init(policy), es);
            var r := ReadResults(Tables(s), us);
            && r.Success?
            && TotalRead(r.value, value) == SumRange(start, end) - CancelledSum(s, run, Chunks(start, end))
            && (TotalRead(r.value, value) == SumRange(start, end) <==> CancelledSum(s, run, Chunks(start, end)) == 0)
  {
    var s, plan := Run(Init(policy), es), Chunks(start, end);
    VerdictsAreRight(policy, es, run);
    ResultsAreTheAnswers(policy, es, run, answer, us);
    NoneMissing(s, run, plan, answer, value, us);
    SettledAddUp(s, run, start, end, answer, value, us);
    TotalIsTheSum(ReadResults(Tables(s), us).value, us, Value(answer, value), value);
  }

  lemma {:induction false} SettledAddUp(s: System, run: RunId, start: int, end: int, answer: Answers, value: Json -> int, us: seq<UnitId>)
    requires SumsChunks(run, Chunks(start, end), answer, value) && HasUnits(s, run, Chunks(start, end)) && AllGood(s, run)
    requires SucceededInOrder(Tables(s), run, us)
    ensures SumOf(us, Value(answer, value)) + CancelledSum(s, run, Chunks(start, end)) == SumRange(start, end)
  {
    var plan := Chunks(start, end);
    ChunksTile(start, end);
    PlansAreAccepted(start, end, c => "");
    SucceededAt(s, run, plan);
    forall i | 0 <= i < |plan| ensures Settled(s, ChunkUnit(run, plan[i])) {
      assert Plans(run, plan, ChunkUnit(run, plan[i]));
    }
    ChunksAddUp(s, run, plan, start, end, answer, value);
    SameUnits(s, run, plan, us);
    SumIsOrderless(us, SucceededOf(s, run, plan), Value(answer, value));
  }

  lemma SameUnits(s: System, run: RunId, plan: seq<SumUnit>, us: seq<UnitId>)
    requires HasUnits(s, run, plan) && SucceededInOrder(Tables(s), run, us)
    requires forall u :: u in SucceededOf(s, run, plan) <==> u in s.cells && s.cells[u].row.status.Succeeded? && Plans(run, plan, u)
    ensures DistinctUnits(us) && forall u :: u in us <==> u in SucceededOf(s, run, plan)
  {
  }

  lemma {:induction false} NoneMissing(s: System, run: RunId, plan: seq<SumUnit>, answer: Answers, value: Json -> int, us: seq<UnitId>)
    requires HasUnits(s, run, plan) && SumsChunks(run, plan, answer, value) && SucceededInOrder(Tables(s), run, us)
    ensures forall i :: 0 <= i < |us| ==> answer(us[i]).Some?
  {
    forall i | 0 <= i < |us| ensures answer(us[i]).Some? {
      assert us[i] in us && Plans(run, plan, us[i]);
      var j :| 0 <= j < |plan| && us[i] == ChunkUnit(run, plan[j]);
      assert SumsChunk(run, plan[j], answer, value);
    }
  }
}
