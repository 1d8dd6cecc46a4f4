/**
 The kit object (testing/finite.py): its loops, each proved against the function of the same call. `RunPending`
 keeps its claim by comparing the kit with the one it started from: the units taken so far are the first of those
 that were due at the call, each changed once by its own handler, and the rest of the kit is as it was. Redelivery
 looks for the one completed unit that matches among all the runs.
 */
module FiniteKitRuntime {
  import opened Wrappers
  import opened Retry
  import opened Planning
  import opened FiniteKitTables
  import opened FiniteKitHistory

  type Handler<!P, +R> = (nat, ExecutionUnit<P>, nat) -> HandlerEnd<R>

  datatype KitError = UnknownRun | NotOneUnit | NotCompleted | Rejected(error: PlanError)

  datatype RunRecord<+R> = RunRecord(id: nat, status: RunStatus, results: seq<R>, attempts: seq<AttemptRecord<R>>)

  predicate IsRun<P, R>(runs: seq<KitRun<P, R>>, id: nat, i: nat) {
    i < |runs| && runs[i].id == id
  }

  function ViewOf<P, R>(r: KitRun<P, R>): RunRecord<R> {
    RunRecord(r.id, StatusOf(r), Results(r.units), r.attempts)
  }

  /** How the next call of the handler for a unit ends. */
  function EndAt<P, R>(runs: seq<KitRun<P, R>>, s: Spot, handler: Handler<P, R>): HandlerEnd<R>
    requires InKit(runs, s)
  {
    handler(runs[s.run].id, UnitAt(runs, s).unit, UnitAt(runs, s).attempts + 1)
  }

  /** The handler is called with the run, the unit and the number of this attempt. */
  function EndOfCall<P, R>(runs: seq<KitRun<P, R>>, s: Spot, handler: Handler<P, R>): HandlerEnd<R>
    requires s.run < |runs| && s.unit < |runs[s.run].units|
  {
    var u := runs[s.run].units[s.unit];
    handler(runs[s.run].id, u.unit, u.attempts + 1)
  }

  function RecordAtSpot<P, R>(runs: seq<KitRun<P, R>>, s: Spot, handler: Handler<P, R>, duplicate: bool): AttemptRecord<R>
    requires InKit(runs, s)
  {
    RecordOf(runs[s.run], UnitAt(runs, s), EffectiveEnd(runs[s.run], EndAt(runs, s, handler)), duplicate)
  }

  function SettledAt<P, R>(k: Kit<P, R>, s: Spot, handler: Handler<P, R>): KitUnit<P, R>
    requires InKit(k.runs, s)
  {
    Settled(UnitAt(k.runs, s), EffectiveEnd(k.runs[s.run], EndAt(k.runs, s, handler)), k.now, k.policy, false)
  }

  // ---- run_pending ----

  ghost predicate InOrder(ss: seq<Spot>) {
    forall i, j :: 0 <= i < j < |ss| ==> Precedes(ss[i], ss[j])
  }

  /** The units due now, each once, in run order and then plan order. */
  ghost predicate Pending<P, R>(k: Kit<P, R>, selected: Option<nat>, ss: seq<Spot>) {
    InOrder(ss) && forall s :: s in ss <==> DueSpot(k.runs, selected, k.now, s)
  }

  ghost predicate SameShape<P, R>(k: Kit<P, R>, k': Kit<P, R>) {
    && k'.now == k.now && k'.policy == k.policy && k'.counter == k.counter && |k'.runs| == |k.runs|
    && forall i :: 0 <= i < |k.runs| ==>
        k'.runs[i].id == k.runs[i].id && k'.runs[i].cancelled == k.runs[i].cancelled && |k'.runs[i].units| == |k.runs[i].units|
  }

  ghost predicate SpotAfter<P, R>(k: Kit<P, R>, k': Kit<P, R>, handler: Handler<P, R>, ss: seq<Spot>, s: Spot) {
    InKit(k.runs, s) && InKit(k'.runs, s) ==> UnitAt(k'.runs, s) == if s in ss then SettledAt(k, s, handler) else UnitAt(k.runs, s)
  }

  ghost predicate RecordsOf<P, R>(k: Kit<P, R>, handler: Handler<P, R>, ss: seq<Spot>, records: seq<AttemptRecord<R>>) {
    |records| == |ss| && forall i :: 0 <= i < |ss| ==> InKit(k.runs, ss[i]) && records[i] == RecordAtSpot(k.runs, ss[i], handler, false)
  }

  /** The records of one run, in order. */
  function OfRun<R>(records: seq<AttemptRecord<R>>, id: nat): seq<AttemptRecord<R>> {
    if records == [] then []
    else OfRun(records[..|records| - 1], id) + if records[|records| - 1].run == id then [records[|records| - 1]] else []
  }

  ghost predicate LoggedRun<P, R>(k: Kit<P, R>, k': Kit<P, R>, records: seq<AttemptRecord<R>>, i: nat) {
    i < |k.runs| && i < |k'.runs| ==> k'.runs[i].attempts == k.runs[i].attempts + OfRun(records, k.runs[i].id)
  }

  /** What the loop has done after some steps. */
  ghost predicate Progress<P, R>(k: Kit<P, R>, k': Kit<P, R>, selected: Option<nat>, handler: Handler<P, R>,
                                 ss: seq<Spot>, records: seq<AttemptRecord<R>>) {
    && SameShape(k, k') && InOrder(ss) && RecordsOf(k, handler, ss, records)
    && (forall s :: s in ss ==> DueSpot(k.runs, selected, k.now, s))
    && (forall s, t :: s in ss && DueSpot(k.runs, selected, k.now, t) && t !in ss ==> Precedes(s, t))
    && (forall s :: SpotAfter(k, k', handler, ss, s))
    && (forall i :: LoggedRun(k, k', records, i))
  }

  /** A settled unit is not due at the same instant: it completed, or waits at least its backoff. */
  lemma {:induction false} SettledIsNotDue<P, R>(u: KitUnit<P, R>, end: HandlerEnd<R>, now: int, policy: Policy)
    ensures !UnitDue(Settled(u, end, now, policy, false), now)
  {
    BackoffIsMonotoneAndBounded(u.attempts + 1, u.attempts + 1, policy);
  }

  lemma {:induction false} StillDue<P, R>(k: Kit<P, R>, k': Kit<P, R>, selected: Option<nat>, handler: Handler<P, R>,
                                          ss: seq<Spot>, records: seq<AttemptRecord<R>>, s: Spot)
    requires Progress(k, k', selected, handler, ss, records)
    ensures DueSpot(k'.runs, selected, k.now, s) <==> DueSpot(k.runs, selected, k.now, s) && s !in ss
  {
    assert SpotAfter(k, k', handler, ss, s);
    if InKit(k.runs, s) {
      SettledIsNotDue(UnitAt(k.runs, s), EffectiveEnd(k.runs[s.run], EndAt(k.runs, s, handler)), k.now, k.policy);
    }
  }

  lemma {:induction false} ProgressOrders<P, R>(k: Kit<P, R>, k': Kit<P, R>, selected: Option<nat>,
                                                handler: Handler<P, R>, ss: seq<Spot>, records: seq<AttemptRecord<R>>,
                                                s: Spot)
    requires Progress(k, k', selected, handler, ss, records)
    requires FirstDue(k'.runs, selected, k.now) == Some(s)
    ensures DueSpot(k.runs, selected, k.now, s) && s !in ss && InOrder(ss + [s])
    ensures forall r, t :: r in ss + [s] && DueSpot(k.runs, selected, k.now, t) && t !in ss + [s] ==> Precedes(r, t)
  {
    FirstDueIsFirst(k'.runs, selected, k.now);
    StillDue(k, k', selected, handler, ss, records, s);
    forall t | DueSpot(k.runs, selected, k.now, t) && t !in ss + [s] ensures Precedes(s, t) {
      StillDue(k, k', selected, handler, ss, records, t);
    }
  }

  lemma {:induction false} ProgressUnits<P, R>(k: Kit<P, R>, k': Kit<P, R>, handler: Handler<P, R>, ss: seq<Spot>,
                                               s: Spot)
    requires SameShape(k, k') && InKit(k.runs, s) && s !in ss && forall t :: SpotAfter(k, k', handler, ss, t)
    ensures var k'' := InvokeAt(k', s, EndAt(k.runs, s, handler), false);
            SameShape(k, k'') && forall t :: SpotAfter(k, k'', handler, ss + [s], t)
  {
    assert SpotAfter(k, k', handler, ss, s);
    var k'' := InvokeAt(k', s, EndAt(k.runs, s, handler), false);
    forall t ensures SpotAfter(k, k'', handler, ss + [s], t) {
      assert SpotAfter(k, k', handler, ss, t);
    }
  }

  lemma {:induction false} OfRunOneMore<R>(records: seq<AttemptRecord<R>>, r: AttemptRecord<R>, id: nat)
    ensures OfRun(records + [r], id) == OfRun(records, id) + if r.run == id then [r] else []
  {
    assert (records + [r])[..|records|] == records;
  }

  lemma {:induction false} ProgressLogs<P, R>(k: Kit<P, R>, k': Kit<P, R>, handler: Handler<P, R>, ss: seq<Spot>,
                                              s: Spot, records: seq<AttemptRecord<R>>)
    requires KitInv(k) && SameShape(k, k') && InKit(k.runs, s) && UnitAt(k'.runs, s) == UnitAt(k.runs, s)
    requires forall i :: LoggedRun(k, k', records, i)
    ensures var k'' := InvokeAt(k', s, EndAt(k.runs, s, handler), false);
            forall i :: LoggedRun(k, k'', records + [RecordAtSpot(k.runs, s, handler, false)], i)
  {
    var k'' := InvokeAt(k', s, EndAt(k.runs, s, handler), false);
    var r := RecordAtSpot(k.runs, s, handler, false);
    forall i | 0 <= i < |k.runs| ensures LoggedRun(k, k'', records + [r], i) {
      assert LoggedRun(k, k', records, i);
      OfRunOneMore(records, r, k.runs[i].id);
    }
  }

  lemma {:induction false} ProgressOne<P, R>(k: Kit<P, R>, k': Kit<P, R>, selected: Option<nat>,
                                             handler: Handler<P, R>, ss: seq<Spot>, records: seq<AttemptRecord<R>>,
                                             s: Spot)
    requires KitInv(k) && Progress(k, k', selected, handler, ss, records)
    requires FirstDue(k'.runs, selected, k.now) == Some(s)
    ensures InKit(k'.runs, s) && InKit(k.runs, s) && EndAt(k'.runs, s, handler) == EndAt(k.runs, s, handler)
    ensures RecordAtSpot(k'.runs, s, handler, false) == RecordAtSpot(k.runs, s, handler, false)
    ensures Progress(k, InvokeAt(k', s, EndAt(k.runs, s, handler), false), selected, handler, ss + [s],
                     records + [RecordAtSpot(k.runs, s, handler, false)])
  {
    ProgressOrders(k, k', selected, handler, ss, records, s);
    assert SpotAfter(k, k', handler, ss, s);
    ProgressUnits(k, k', handler, ss, s);
    ProgressLogs(k, k', handler, ss, s, records);
  }

  lemma {:induction false} ProgressEnds<P, R>(k: Kit<P, R>, k': Kit<P, R>, selected: Option<nat>,
                                              handler: Handler<P, R>, ss: seq<Spot>, records: seq<AttemptRecord<R>>)
    requires Progress(k, k', selected, handler, ss, records) && forall s :: !DueSpot(k'.runs, selected, k.now, s)
    ensures Pending(k, selected, ss)
  {
    forall s ensures s in ss <==> DueSpot(k.runs, selected, k.now, s) {
      StillDue(k, k', selected, handler, ss, records, s);
    }
  }

  /** The first due unit of a prefix of a run, as the inner loop of a step finds it. */
  lemma {:induction false} FirstDueUnitSkips<P, R>(units: seq<KitUnit<P, R>>, now: int, j: nat)
    requires j < |units| && FirstDueUnit(units[..j], now).None?
    ensures FirstDueUnit(units[..j + 1], now) == if UnitDue(units[j], now) then Some(j) else None
  {
    assert units[..j + 1][..j] == units[..j];
  }

  /** Once found, the first due unit stays the first, however many follow. */
  lemma {:induction false} FirstDueUnitSticks<P, R>(units: seq<KitUnit<P, R>>, now: int, j: nat)
    requires j <= |units| && FirstDueUnit(units[..j], now).Some?
    ensures FirstDueUnit(units, now) == FirstDueUnit(units[..j], now)
    decreases |units| - j
  {
    if j < |units| {
      assert units[..j + 1][..j] == units[..j];
      FirstDueUnitSticks(units, now, j + 1);
    } else {
      assert units[..j] == units;
    }
  }

  lemma {:induction false} FirstDueSticks<P, R>(runs: seq<KitRun<P, R>>, selected: Option<nat>, now: int, i: nat)
    requires i <= |runs| && FirstDue(runs[..i], selected, now).Some?
    ensures FirstDue(runs, selected, now) == FirstDue(runs[..i], selected, now)
    decreases |runs| - i
  {
    if i < |runs| {
      assert runs[..i + 1][..i] == runs[..i];
      FirstDueSticks(runs, selected, now, i + 1);
    } else {
      assert runs[..i] == runs;
    }
  }

  function Found<R>(record: Option<AttemptRecord<R>>): seq<AttemptRecord<R>> {
    if record.Some? then [record.value] else []
  }

  /** The account of the loop, and what it rests on. */
  ghost predicate Tracking<P, R>(k: Kit<P, R>, b: Kit<P, R>, selected: Option<nat>, handler: Handler<P, R>,
                                 ss: seq<Spot>, records: seq<AttemptRecord<R>>) {
    KitInv(k) && KitInv(b) && SameShape(k, b) && Progress(k, b, selected, handler, ss, records)
  }

  /** One turn of the loop keeps the account and spends from the budget. */
  lemma {:induction false} Tracked<P, R>(k: Kit<P, R>, b: Kit<P, R>, selected: Option<nat>, handler: Handler<P, R>,
                                         ss: seq<Spot>, records: seq<AttemptRecord<R>>, s: Spot)
    requires Tracking(k, b, selected, handler, ss, records)
    requires FirstDue(b.runs, selected, b.now) == Some(s)
    ensures InKit(b.runs, s)
    ensures var b' := InvokeAt(b, s, EndAt(b.runs, s, handler), false);
            && TotalBudget(b'.runs) < TotalBudget(b.runs)
            && Tracking(k, b', selected, handler, ss + [s], records + [RecordAtSpot(b.runs, s, handler, false)])
  {
    FirstDueIsFirst(b.runs, selected, b.now);
    ProgressOne(k, b, selected, handler, ss, records, s);
    StepIsOk(b, Delivered(selected, EndAt(b.runs, s, handler)));
    DeliverySpendsBudget(b, s, EndAt(b.runs, s, handler));
  }

  lemma {:induction false} SameIds<P, R>(k: Kit<P, R>, b: Kit<P, R>, selected: Option<nat>)
    requires SameShape(k, b)
    ensures selected.Some? && Knows(k.runs, selected.value) ==> Knows(b.runs, selected.value)
  {
    if selected.Some? && Knows(k.runs, selected.value) {
      var i :| 0 <= i < |k.runs| && k.runs[i].id == selected.value;
      assert b.runs[i].id == selected.value;
    }
  }

  // ---- what a cancellation leaves ----

  ghost predicate UnitCancelled<P, R>(u: KitUnit<P, R>, u': KitUnit<P, R>) {
    u' == u.(status := if u.status in {FiniteTables.Succeeded, FiniteTables.Failed, FiniteTables.DeadLettered} then u.status
                       else FiniteTables.Cancelled)
  }

  /** The units of one run that were not completed are cancelled, and its handlers are not reached any more. */
  ghost predicate RunCancelledAt<P, R>(before: seq<KitRun<P, R>>, after: seq<KitRun<P, R>>, i: nat) {
    && i < |before| && |after| == |before| && |after[i].units| == |before[i].units|
    && after == before[i := KitRun(before[i].id, after[i].units, before[i].attempts, true)]
    && forall j :: 0 <= j < |before[i].units| ==> UnitCancelled(before[i].units[j], after[i].units[j])
  }

  // ---- what is redelivered ----

  /** The one unit of this key among the selected runs. */
  ghost predicate OnlyOf<P, R>(runs: seq<KitRun<P, R>>, selected: Option<nat>, key: string, s: Spot) {
    HasKey(runs, selected, key, s) && forall t :: HasKey(runs, selected, key, t) ==> t == s
  }

  predicate HasKey<P, R>(runs: seq<KitRun<P, R>>, selected: Option<nat>, key: string, s: Spot) {
    && s.run < |runs| && s.unit < |runs[s.run].units| && (selected.Some? ==> runs[s.run].id == selected.value)
    && runs[s.run].units[s.unit].unit.key == key
  }

  predicate Completed<P, R>(runs: seq<KitRun<P, R>>, s: Spot) {
    s.run < |runs| && s.unit < |runs[s.run].units| &&
    runs[s.run].units[s.unit].status in {FiniteTables.Succeeded, FiniteTables.Failed, FiniteTables.DeadLettered, FiniteTables.Cancelled}
  }

  lemma {:induction false} MatchesHasKey<P, R>(runs: seq<KitRun<P, R>>, selected: Option<nat>, key: string)
    ensures forall s :: Matches(runs, selected, key, s) <==> HasKey(runs, selected, key, s)
    ensures forall s :: Redeliverable(runs, selected, key, s) <==> OnlyOf(runs, selected, key, s) && Completed(runs, s)
  {
    forall s ensures Matches(runs, selected, key, s) <==> HasKey(runs, selected, key, s) {
    }
  }

  // ---- what run_pending leaves ----

  /** The units on offer, each once, in run order and then plan order. */
  ghost predicate OfferedInOrder<P, R>(runs: seq<KitRun<P, R>>, selected: Option<nat>, now: int, ss: seq<Spot>) {
    && (forall s :: s in ss <==> OnOffer(runs, selected, now, s))
    && (forall i, j :: 0 <= i < j < |ss| ==> ss[i].run < ss[j].run || (ss[i].run == ss[j].run && ss[i].unit < ss[j].unit))
  }

  ghost predicate NothingOnOffer<P, R>(runs: seq<KitRun<P, R>>, selected: Option<nat>, now: int) {
    forall s :: !OnOffer(runs, selected, now, s)
  }

  /** Each of these units as its one call left it. */
  ghost predicate CalledAt<P, R>(before: seq<KitRun<P, R>>, after: seq<KitRun<P, R>>, s: Spot, record: AttemptRecord<R>,
                                 handler: Handler<P, R>, now: int, policy: Policy) {
    && s.run < |before| && s.unit < |before[s.run].units| && s.run < |after| && s.unit < |after[s.run].units|
    && var r, u := before[s.run], before[s.run].units[s.unit];
       Leaves(r, u, after[s.run].units[s.unit], record, EndOfCall(before, s, handler), now, policy, false)
  }

  ghost predicate CalledEach<P, R>(before: seq<KitRun<P, R>>, after: seq<KitRun<P, R>>, ss: seq<Spot>, records: seq<AttemptRecord<R>>,
                                   handler: Handler<P, R>, now: int, policy: Policy) {
    && |records| == |ss| && (forall i :: 0 <= i < |ss| ==> CalledAt(before, after, ss[i], records[i], handler, now, policy))
    && (forall s :: InKit(before, s) && InKit(after, s) && s !in ss ==> UnitAt(after, s) == UnitAt(before, s))
  }

  lemma {:induction false} ProgressCalls<P, R>(k: Kit<P, R>, k': Kit<P, R>, selected: Option<nat>, handler: Handler<P, R>,
                                               ss: seq<Spot>, records: seq<AttemptRecord<R>>)
    requires Progress(k, k', selected, handler, ss, records) && Pending(k, selected, ss)
    requires forall s :: !DueSpot(k'.runs, selected, k.now, s)
    ensures NothingOnOffer(k'.runs, selected, k.now)
    ensures OfferedInOrder(k.runs, selected, k.now, ss) && CalledEach(k.runs, k'.runs, ss, records, handler, k.now, k.policy)
  {
    forall s ensures OnOffer(k.runs, selected, k.now, s) <==> DueSpot(k.runs, selected, k.now, s) {
      OnOfferIsDue(k.runs, selected, k.now, s);
    }
    forall s ensures !OnOffer(k'.runs, selected, k.now, s) {
      OnOfferIsDue(k'.runs, selected, k.now, s);
    }
    forall i | 0 <= i < |ss| ensures CalledAt(k.runs, k'.runs, ss[i], records[i], handler, k.now, k.policy) {
      CalledOne(k, k', handler, ss, records, i);
    }
    forall s | InKit(k.runs, s) && InKit(k'.runs, s) && s !in ss ensures UnitAt(k'.runs, s) == UnitAt(k.runs, s) {
      assert SpotAfter(k, k', handler, ss, s);
    }
  }

  lemma {:induction false} CalledOne<P, R>(k: Kit<P, R>, k': Kit<P, R>, handler: Handler<P, R>, ss: seq<Spot>,
                                           records: seq<AttemptRecord<R>>, i: nat)
    requires SameShape(k, k') && RecordsOf(k, handler, ss, records) && i < |ss| && forall s :: SpotAfter(k, k', handler, ss, s)
    ensures CalledAt(k.runs, k'.runs, ss[i], records[i], handler, k.now, k.policy)
  {
    var s := ss[i];
    assert s in ss && SpotAfter(k, k', handler, ss, s);
    SettledLeaves(k.runs[s.run], UnitAt(k.runs, s), EndAt(k.runs, s, handler), k.now, k.policy, false);
  }

  class FiniteRuntimeTestKit<P, R> {
    const policy: Policy
    var now: int
    var counter: nat
    var runs: seq<KitRun<P, R>>

    function Value(): Kit<P, R>
      reads this
    {
      Kit(now, policy, counter, runs)
    }

    constructor (policy: Policy)
      ensures Value() == Kit(0, policy, 0, []) && KitInv(Value())
    {
      this.policy, now, counter, runs := policy, 0, 0, [];
    }

    method Advance(elapsed: nat)
      modifies this
      ensures Value() == old(Value()).(now := old(now) + elapsed)
    {
      now := now + elapsed;
    }

    /** Plan one run; a rejected plan leaves no run behind but has used up its number. */
    method Submit(planned: seq<ExecutionUnit<P>>, digest: P -> string) returns (result: Result<nat, KitError>)
      modifies this
      ensures result.Success? <==> DistinctUnitKeys(planned)
      ensures result.Success? ==> result.value == old(counter) + 1
      ensures Value() == FiniteKitTables.Submit(old(Value()), if result.Success? then Some(planned) else None)
      ensures counter == old(counter) + 1 && now == old(now) && (result.Failure? ==> runs == old(runs))
      ensures result.Success? ==>
                && |runs| == |old(runs)| + 1 && runs[..|old(runs)|] == old(runs)
                && var r := runs[|old(runs)|];
                   && r.id == result.value && r.attempts == [] && !r.cancelled && |r.units| == |planned|
                   && forall i :: 0 <= i < |planned| ==> r.units[i] == KitUnit(planned[i], FiniteTables.Ready, 0, 0, None)
    {
      counter := counter + 1;
      var validated := ValidatePlan(planned, digest, None, _ => false);
      if validated.Failure? {
        assert !DistinctUnitKeys(planned) by {
          RefusedHasAReason(planned, digest, None, _ => false, validated.error);
        }
        return Failure(Rejected(validated.error));
      }
      var units: seq<KitUnit<P, R>> := [];
      for i := 0 to |planned|
        invariant units == FreshUnits<P, R>(planned[..i])
        invariant forall j :: 0 <= j < i ==> units[j] == KitUnit(planned[j], FiniteTables.Ready, 0, 0, None)
      {
        assert planned[..i + 1][..i] == planned[..i];
        units := units + [KitUnit(planned[i], FiniteTables.Ready, 0, 0, None)];
      }
      assert planned[..|planned|] == planned;
      runs := runs + [KitRun(counter, units, [], false)];
      result := Success(counter);
    }

    method Lookup(id: nat) returns (index: Option<nat>)
      ensures index.Some? <==> Knows(runs, id)
      ensures index.Some? ==> IsRun(runs, id, index.value)
    {
      for i := 0 to |runs|
        invariant forall j :: 0 <= j < i ==> runs[j].id != id
      {
        if runs[i].id == id {
          return Some(i);
        }
      }
      index := None;
    }

    /** Call the handler of one unit and write what came of it. */
    method Invoke(s: Spot, handler: Handler<P, R>, duplicate: bool) returns (record: AttemptRecord<R>)
      requires InKit(runs, s)
      modifies this`runs
      ensures Value() == InvokeAt(old(Value()), s, EndAt(old(runs), s, handler), duplicate)
      ensures record == RecordAtSpot(old(runs), s, handler, duplicate)
      ensures LeavesAt(old(runs), runs, s, record, EndOfCall(old(runs), s, handler), now, policy, duplicate)
    {
      SettledLeaves(runs[s.run], UnitAt(runs, s), EndAt(runs, s, handler), now, policy, duplicate);
      var r, u := runs[s.run], runs[s.run].units[s.unit];
      var attempt := u.attempts + 1;
      var end := if r.cancelled then Raised(CancelledError) else handler(r.id, u.unit, attempt);
      var status := Verdict(end, attempt, u.unit.maxAttempts);
      record := AttemptRecord(r.id, u.unit.key, attempt, status,
                              if end.Returned? then Some(end.value) else None, if end.Raised? then Some(end.error) else None, duplicate);
      u := u.(attempts := attempt);
      if !duplicate {
        u := u.(status := status);
        match end
        case Returned(value) => u := u.(result := Some(value));
        case Raised(error) =>
          if status.RetryScheduled? {
            u := u.(nextAttemptAt := now + RetryWait(error, attempt, policy));
          }
      }
      runs := runs[s.run := r.(units := r.units[s.unit := u], attempts := r.attempts + [record])];
    }

    /** The search of a step: the first due unit in run order, then plan order. */
    method FindDue(selected: Option<nat>) returns (found: Option<Spot>)
      ensures found == FirstDue(runs, selected, now)
    {
      for i := 0 to |runs|
        invariant FirstDue(runs[..i], selected, now).None?
      {
        assert runs[..i + 1][..i] == runs[..i];
        if Selects(selected, runs[i]) {
          var units := runs[i].units;
          for j := 0 to |units|
            invariant FirstDueUnit(units[..j], now).None?
          {
            FirstDueUnitSkips(units, now, j);
            if UnitDue(units[j], now) {
              FirstDueUnitSticks(units, now, j + 1);
              FirstDueSticks(runs, selected, now, i + 1);
              return Some(Spot(i, j));
            }
          }
          assert units[..|units|] == units;
        }
      }
      assert runs[..|runs|] == runs;
      found := None;
    }

    /** Run the next due attempt; the result is its record, or none when nothing is due. */
    method Step(selected: Option<nat>, handler: Handler<P, R>)
      returns (result: Result<Option<AttemptRecord<R>>, KitError>)
      modifies this`runs
      ensures result.Failure? <==> selected.Some? && forall i :: 0 <= i < |old(runs)| ==> old(runs)[i].id != selected.value
      ensures result.Failure? ==> result == Failure(UnknownRun)
      ensures result.Failure? || result.value.None? ==> runs == old(runs)
      ensures result.Success? ==> (result.value.Some? <==> FirstDue(old(runs), selected, now).Some?)
      ensures result.Success? && result.value.Some? ==>
                var s := FirstDue(old(runs), selected, now).value;
                && InKit(old(runs), s) && result.value.value == RecordAtSpot(old(runs), s, handler, false)
                && Value() == InvokeAt(old(Value()), s, EndAt(old(runs), s, handler), false)
                && FirstOnOffer(old(runs), selected, now, s)
                && LeavesAt(old(runs), runs, s, result.value.value, EndOfCall(old(runs), s, handler), now, policy, false)
      ensures result == Success(None) ==> forall s :: !OnOffer(old(runs), selected, now, s)
    {
      if selected.Some? {
        var known := Lookup(selected.value);
        if known.None? {
          return Failure(UnknownRun);
        }
      }
      StepTakesTheFirst(runs, selected, now);
      var found := FindDue(selected);
      if found.None? {
        return Success(None);
      }
      FirstDueIsFirst(runs, selected, now);
      var record := Invoke(found.value, handler, false);
      result := Success(Some(record));
    }

    /** A step inside run_pending, with the account of the loop carried along. */
    method NextPending(selected: Option<nat>, handler: Handler<P, R>, ghost k: Kit<P, R>, ghost ss: seq<Spot>,
                       ghost records: seq<AttemptRecord<R>>)
      returns (next: Option<AttemptRecord<R>>, ghost ss': seq<Spot>)
      requires Tracking(k, Value(), selected, handler, ss, records)
      requires selected.Some? ==> Knows(runs, selected.value)
      modifies this`runs
      ensures Tracking(k, Value(), selected, handler, ss', records + Found(next))
      ensures if next.Some? then TotalBudget(runs) < old(TotalBudget(runs)) else runs == old(runs)
      ensures next.None? ==> forall s :: !DueSpot(runs, selected, now, s)
    {
      ghost var b := Value();
      FirstDueIsFirst(b.runs, selected, b.now);
      var stepped := Step(selected, handler);
      next, ss' := stepped.value, ss;
      if next.Some? {
        ghost var s := FirstDue(b.runs, selected, b.now).value;
        Tracked(k, b, selected, handler, ss, records, s);
        ss' := ss + [s];
      } else {
        assert records + Found(next) == records;
      }
    }

    /**
     Run attempts until nothing is due. The loop ends because every turn spends an attempt of the budget. With the
     clock standing still it invokes exactly the units due at the call, each once, in run order and then plan order.
     */
    method RunPending(selected: Option<nat>, handler: Handler<P, R>)
      returns (result: Result<seq<AttemptRecord<R>>, KitError>, ghost ss: seq<Spot>)
      requires KitInv(Value())
      modifies this`runs
      ensures KitInv(Value())
      ensures result.Failure? <==> selected.Some? && !Knows(old(runs), selected.value)
      ensures result.Failure? ==> runs == old(runs)
      ensures result.Success? ==>
                && Pending(old(Value()), selected, ss)
                && Progress(old(Value()), Value(), selected, handler, ss, result.value)
                && forall s :: !DueSpot(runs, selected, now, s)
      ensures result.Success? ==>
                && OfferedInOrder(old(runs), selected, now, ss)
                && CalledEach(old(runs), runs, ss, result.value, handler, now, policy)
                && NothingOnOffer(runs, selected, now)
    {
      ghost var k := Value();
      ss := [];
      var records: seq<AttemptRecord<R>> := [];
      if selected.Some? {
        var known := Lookup(selected.value);
        if known.None? {
          return Failure(UnknownRun), ss;
        }
      }
      var next;
      next, ss := NextPending(selected, handler, k, ss, records);
      while next.Some?
        invariant Tracking(k, Value(), selected, handler, ss, records + Found(next))
        invariant next.None? ==> forall s :: !DueSpot(runs, selected, now, s)
        decreases TotalBudget(runs), if next.Some? then 1 else 0
      {
        records := records + Found(next);
        SameIds(k, Value(), selected);
        next, ss := NextPending(selected, handler, k, ss, records);
      }
      assert records + Found(next) == records;
      ProgressEnds(k, Value(), selected, handler, ss, records);
      ProgressCalls(k, Value(), selected, handler, ss, records);
      result := Success(records);
    }

    /** Deliver a completed unit again: the handler runs, the call is logged, and nothing else changes. */
    method Redeliver(key: string, selected: Option<nat>, handler: Handler<P, R>)
      returns (result: Result<AttemptRecord<R>, KitError>, ghost spot: Spot)
      modifies this`runs
      ensures result.Success? <==>
                (selected.Some? ==> Knows(old(runs), selected.value)) && exists s :: Redeliverable(old(runs), selected, key, s)
      ensures result.Failure? ==> runs == old(runs)
      ensures result.Success? ==>
                && Redeliverable(old(runs), selected, key, spot)
                && result.value == RecordAtSpot(old(runs), spot, handler, true)
                && Value() == FiniteKitTables.Step(old(Value()), Redelivered(spot, selected, key, EndAt(old(runs), spot, handler)))
                && OnlyOf(old(runs), selected, key, spot) && Completed(old(runs), spot)
                && LeavesAt(old(runs), runs, spot, result.value, EndOfCall(old(runs), spot, handler), now, policy, true)
      ensures result.Failure? ==>
                result.error == if selected.Some? && (forall i :: 0 <= i < |old(runs)| ==> old(runs)[i].id != selected.value) then UnknownRun
                                else if exists s :: OnlyOf(old(runs), selected, key, s) then NotCompleted else NotOneUnit
    {
      spot := Spot(0, 0);
      MatchesHasKey(runs, selected, key);
      if selected.Some? {
        var known := Lookup(selected.value);
        if known.None? {
          return Failure(UnknownRun), spot;
        }
      }
      var matches := FindMatches(key, selected);
      if |matches| != 1 {
        NoSingleMatch(runs, selected, key, matches);
        return Failure(NotOneUnit), spot;
      }
      OneMatch(runs, selected, key, matches);
      if !Terminal(UnitAt(runs, matches[0]).status) {
        assert OnlyOf(runs, selected, key, matches[0]);
        return Failure(NotCompleted), spot;
      }
      spot := matches[0];
      var record := Invoke(matches[0], handler, true);
      result := Success(record);
    }

    /** The units of a key among the selected runs. */
    method FindMatches(key: string, selected: Option<nat>) returns (matches: seq<Spot>)
      ensures InOrder(matches) && forall s :: s in matches <==> Matches(runs, selected, key, s)
    {
      matches := [];
      for i := 0 to |runs|
        invariant MatchedBefore(runs, selected, key, matches, Spot(i, 0))
      {
        var units := runs[i].units;
        for j := 0 to |units|
          invariant MatchedBefore(runs, selected, key, matches, Spot(i, j))
        {
          MatchedOneMore(runs, selected, key, matches, Spot(i, j));
          if Selects(selected, runs[i]) && units[j].unit.key == key {
            matches := matches + [Spot(i, j)];
          }
        }
      }
    }

    /** Cancel a run: its unfinished units are cancelled and its handlers are not called again. */
    method CancelRun(id: nat) returns (error: Option<KitError>)
      modifies this`runs
      ensures error.None? <==> Knows(old(runs), id)
      ensures error.Some? ==> runs == old(runs)
      ensures error.None? ==> exists i: nat :: IsRun(old(runs), id, i) && runs == old(runs)[i := CancelledRun(old(runs)[i])]
      ensures error.None? ==> exists i: nat :: IsRun(old(runs), id, i) && RunCancelledAt(old(runs), runs, i)
    {
      var found := Lookup(id);
      if found.None? {
        return Some(UnknownRun);
      }
      var r := runs[found.value];
      var units: seq<KitUnit<P, R>> := [];
      for i := 0 to |r.units|
        invariant units == CancelUnits(r.units[..i])
        invariant forall j :: 0 <= j < i ==> UnitCancelled(r.units[j], units[j])
      {
        assert r.units[..i + 1][..i] == r.units[..i];
        units := units + [if Terminal(r.units[i].status) then r.units[i] else r.units[i].(status := FiniteTables.Cancelled)];
      }
      assert r.units[..|r.units|] == r.units;
      runs := runs[found.value := r.(cancelled := true, units := units)];
      assert RunCancelledAt(old(runs), runs, found.value);
      error := None;
    }

    /** The aggregated view of a run. */
    method View(id: nat) returns (result: Result<RunRecord<R>, KitError>, ghost at: seq<nat>)
      ensures result.Success? <==> Knows(runs, id)
      ensures result.Success? ==> exists i: nat :: IsRun(runs, id, i) && result.value == ViewOf(runs[i])
      ensures result.Success? ==> exists i: nat :: IsRun(runs, id, i) && Shows(runs[i], result.value, at)
    {
      at := [];
      var found := Lookup(id);
      if found.None? {
        return Failure(UnknownRun), at;
      }
      var r := runs[found.value];
      VerdictIsOfTheUnits(r);
      at := ResultsAreAt(r.units);
      var statuses := set i | 0 <= i < |r.units| :: r.units[i].status;
      StatusSet(r, statuses);
      var status :=
        if r.units == [] || statuses == {FiniteTables.Succeeded} then FiniteTables.RunSucceeded
        else if statuses * {FiniteTables.Failed, FiniteTables.DeadLettered} != {} then FiniteTables.RunFailed
        else if r.cancelled || FiniteTables.Cancelled in statuses then FiniteTables.RunCancelled
        else FiniteTables.RunRunning;
      var results: seq<R> := [];
      for i := 0 to |r.units|
        invariant results == Results(r.units[..i])
      {
        assert r.units[..i + 1][..i] == r.units[..i];
        if r.units[i].status.Succeeded? && r.units[i].result.Some? {
          results := results + [r.units[i].result.value];
        }
      }
      assert r.units[..|r.units|] == r.units;
      result := Success(RunRecord(id, status, results, r.attempts));
    }
  }

  /** The log of a run, its verdict, and the results of its succeeded units in plan order. */
  ghost predicate Shows<P, R>(r: KitRun<P, R>, view: RunRecord<R>, at: seq<nat>) {
    view.id == r.id && view.attempts == r.attempts && VerdictFits(r, view.status) && ResultsAt(r.units, view.results, at)
  }

  /** The statuses of a run's units, as the view reads them. */
  lemma {:induction false} StatusSet<P, R>(r: KitRun<P, R>, statuses: set<UnitStatus>)
    requires statuses == set i | 0 <= i < |r.units| :: r.units[i].status
    ensures forall s :: s in statuses <==> HasStatus(r.units, s)
    ensures r.units == [] || statuses == {FiniteTables.Succeeded} <==> AllSucceeded(r.units)
    ensures statuses * {FiniteTables.Failed, FiniteTables.DeadLettered} != {} <==>
            HasStatus(r.units, FiniteTables.Failed) || HasStatus(r.units, FiniteTables.DeadLettered)
  {
    if r.units != [] {
      assert r.units[0].status in statuses;
    }
    forall i | 0 <= i < |r.units| ensures r.units[i].status in statuses {
    }
    var bad := statuses * {FiniteTables.Failed, FiniteTables.DeadLettered};
    assert FiniteTables.Failed in bad <==> FiniteTables.Failed in statuses;
    assert FiniteTables.DeadLettered in bad <==> FiniteTables.DeadLettered in statuses;
  }

  lemma {:induction false} NoSingleMatch<P, R>(runs: seq<KitRun<P, R>>, selected: Option<nat>, key: string,
                                               matches: seq<Spot>)
    requires InOrder(matches) && |matches| != 1 && forall s :: s in matches <==> Matches(runs, selected, key, s)
    ensures forall s :: !Redeliverable(runs, selected, key, s) && !OnlyOf(runs, selected, key, s)
  {
    MatchesHasKey(runs, selected, key);
    forall s ensures HasKey(runs, selected, key, s) <==> s in matches {
      assert Matches(runs, selected, key, s) <==> HasKey(runs, selected, key, s);
    }
    if |matches| >= 2 {
      assert matches[0] in matches && matches[1] in matches && Precedes(matches[0], matches[1]);
    }
  }

  lemma {:induction false} OneMatch<P, R>(runs: seq<KitRun<P, R>>, selected: Option<nat>, key: string,
                                          matches: seq<Spot>)
    requires |matches| == 1 && forall s :: s in matches <==> Matches(runs, selected, key, s)
    ensures InKit(runs, matches[0])
    ensures if Terminal(UnitAt(runs, matches[0]).status) then Redeliverable(runs, selected, key, matches[0])
            else forall s :: !Redeliverable(runs, selected, key, s)
  {
    assert matches[0] in matches;
    assert forall s :: s in matches ==> s == matches[0];
  }

  /** The matches before a position. */
  ghost predicate MatchedBefore<P, R>(runs: seq<KitRun<P, R>>, selected: Option<nat>, key: string, matches: seq<Spot>,
                                      end: Spot) {
    InOrder(matches) && forall s :: s in matches <==> Matches(runs, selected, key, s) && Precedes(s, end)
  }

  lemma {:induction false} MatchedOneMore<P, R>(runs: seq<KitRun<P, R>>, selected: Option<nat>, key: string,
                                                matches: seq<Spot>, s: Spot)
    requires MatchedBefore(runs, selected, key, matches, s) && InKit(runs, s)
    ensures var more := if Matches(runs, selected, key, s) then matches + [s] else matches;
            MatchedBefore(runs, selected, key, more, Spot(s.run, s.unit + 1))
  {
    forall t ensures Precedes(t, Spot(s.run, s.unit + 1)) <==> Precedes(t, s) || t == s {
    }
  }
}
