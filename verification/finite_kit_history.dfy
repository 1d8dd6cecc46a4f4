/** What every schedule of the finite kit keeps: final units and verdicts, quiet redelivery and a bounded number of attempts. */
module FiniteKitHistory {
  import opened Wrappers
  import opened Retry
  import opened Planning
  import opened FiniteKitTables

  // ---- choosing ----

  lemma {:induction false} FirstDueUnitIsFirst<P, R>(units: seq<KitUnit<P, R>>, now: int)
    ensures var f := FirstDueUnit(units, now);
            && (f.Some? ==> f.value < |units| && UnitDue(units[f.value], now) && forall i :: 0 <= i < f.value ==> !UnitDue(units[i], now))
            && (f.None? ==> forall i :: 0 <= i < |units| ==> !UnitDue(units[i], now))
  {
    if units != [] {
      FirstDueUnitIsFirst(units[..|units| - 1], now);
    }
  }

  /** A step takes the first due unit in run order, then plan order, and none only if none is due. */
  lemma {:induction false} FirstDueIsFirst<P, R>(runs: seq<KitRun<P, R>>, selected: Option<nat>, now: int)
    ensures var f := FirstDue(runs, selected, now);
            && (f.Some? ==> DueSpot(runs, selected, now, f.value))
            && (f.Some? ==> forall s :: DueSpot(runs, selected, now, s) ==> s == f.value || Precedes(f.value, s))
            && (f.None? ==> forall s :: !DueSpot(runs, selected, now, s))
  {
    if runs != [] {
      var n := |runs| - 1;
      FirstDueIsFirst(runs[..n], selected, now);
      FirstDueUnitIsFirst(runs[n].units, now);
      forall s | DueSpot(runs, selected, now, s) && s.run < n ensures DueSpot(runs[..n], selected, now, s) {
      }
      var f := FirstDue(runs, selected, now);
      if f.Some? && f.value.run < n {
        assert DueSpot(runs[..n], selected, now, f.value);
      }
    }
  }

  /** A unit of a selected run that may be invoked: ready or waiting for a retry, and its time has come. */
  predicate OnOffer<P, R>(runs: seq<KitRun<P, R>>, selected: Option<nat>, now: int, s: Spot) {
    && s.run < |runs| && s.unit < |runs[s.run].units| && (selected.Some? ==> runs[s.run].id == selected.value)
    && var u := runs[s.run].units[s.unit];
       (u.status == FiniteTables.Ready || u.status == FiniteTables.RetryScheduled) && u.nextAttemptAt <= now
  }

  lemma OnOfferIsDue<P, R>(runs: seq<KitRun<P, R>>, selected: Option<nat>, now: int, s: Spot)
    ensures OnOffer(runs, selected, now, s) <==> DueSpot(runs, selected, now, s)
  {
  }

  /** It is on offer, and so is nothing before it in run order and then plan order. */
  ghost predicate FirstOnOffer<P, R>(runs: seq<KitRun<P, R>>, selected: Option<nat>, now: int, s: Spot) {
    && OnOffer(runs, selected, now, s)
    && forall t :: OnOffer(runs, selected, now, t) ==> s.run < t.run || (s.run == t.run && s.unit <= t.unit)
  }

  lemma {:induction false} StepTakesTheFirst<P, R>(runs: seq<KitRun<P, R>>, selected: Option<nat>, now: int)
    ensures var f := FirstDue(runs, selected, now);
            if f.Some? then FirstOnOffer(runs, selected, now, f.value) else forall s :: !OnOffer(runs, selected, now, s)
  {
    FirstDueIsFirst(runs, selected, now);
    forall s ensures OnOffer(runs, selected, now, s) <==> DueSpot(runs, selected, now, s) {
      OnOfferIsDue(runs, selected, now, s);
    }
  }

  // ---- the invariant ----

  /** Between two calls no unit is running, a unit that may still run has an attempt left, and results mean success. */
  predicate UnitOk<P, R>(u: KitUnit<P, R>, cancelled: bool) {
    && (FiniteTables.Claimable(u.status) || Terminal(u.status))
    && (FiniteTables.Claimable(u.status) ==> u.attempts < u.unit.maxAttempts && !cancelled)
    && (u.result.Some? <==> u.status.Succeeded?)
  }

  ghost predicate RunOk<P, R>(r: KitRun<P, R>) {
    forall i :: 0 <= i < |r.units| ==> UnitOk(r.units[i], r.cancelled)
  }

  ghost predicate KitInv<P, R>(k: Kit<P, R>) {
    && (forall i :: 0 <= i < |k.runs| ==> RunOk(k.runs[i]) && k.runs[i].id <= k.counter)
    && (forall i, j :: 0 <= i < j < |k.runs| ==> k.runs[i].id < k.runs[j].id)
  }

  /** How one call may change a unit: a completed one only counts further attempts. */
  ghost predicate UnitEvolves<P, R>(u: KitUnit<P, R>, u': KitUnit<P, R>) {
    && u'.unit == u.unit && u.attempts <= u'.attempts
    && (Terminal(u.status) ==> u' == u.(attempts := u'.attempts))
  }

  ghost predicate RunEvolves<P, R>(r: KitRun<P, R>, r': KitRun<P, R>) {
    && r'.id == r.id && |r'.units| == |r.units| && (r.cancelled ==> r'.cancelled) && r.attempts <= r'.attempts
    && forall i :: 0 <= i < |r.units| ==> UnitEvolves(r.units[i], r'.units[i])
  }

  lemma {:induction false} InvokedIsOk<P, R>(r: KitRun<P, R>, i: nat, end: HandlerEnd<R>, now: int, policy: Policy,
                                             duplicate: bool)
    requires i < |r.units| && RunOk(r)
    requires (if duplicate then Terminal(r.units[i].status) else FiniteTables.Claimable(r.units[i].status))
    ensures RunOk(Invoked(r, i, end, now, policy, duplicate))
    ensures RunEvolves(r, Invoked(r, i, end, now, policy, duplicate))
  {
    assert UnitOk(r.units[i], r.cancelled);
  }

  lemma {:induction false} CancelUnitsAt<P, R>(units: seq<KitUnit<P, R>>, i: nat)
    requires i < |units|
    ensures CancelUnits(units)[i] == CancelUnit(units[i])
  {
    if i < |units| - 1 {
      CancelUnitsAt(units[..|units| - 1], i);
    }
  }

  lemma {:induction false} CancelledIsOk<P, R>(r: KitRun<P, R>)
    requires RunOk(r)
    ensures RunOk(CancelledRun(r)) && RunEvolves(r, CancelledRun(r))
  {
    forall i | 0 <= i < |r.units|
      ensures UnitOk(CancelUnits(r.units)[i], true) && UnitEvolves(r.units[i], CancelUnits(r.units)[i])
    {
      CancelUnitsAt(r.units, i);
      assert UnitOk(r.units[i], r.cancelled);
    }
  }

  lemma {:induction false} FreshUnitsAt<P, R>(plan: seq<ExecutionUnit<P>>, i: nat)
    requires i < |plan|
    ensures FreshUnits<P, R>(plan)[i] == KitUnit(plan[i], FiniteTables.Ready, 0, 0, None)
  {
    if i < |plan| - 1 {
      FreshUnitsAt<P, R>(plan[..|plan| - 1], i);
    }
  }

  /** Replacing one run by one it may evolve to. */
  lemma {:induction false} ReplaceRun<P, R>(k: Kit<P, R>, i: nat, r: KitRun<P, R>)
    requires i < |k.runs| && KitInv(k) && RunOk(r) && RunEvolves(k.runs[i], r)
    ensures KitInv(k.(runs := k.runs[i := r]))
    ensures forall j :: 0 <= j < |k.runs| ==> RunEvolves(k.runs[j], k.runs[i := r][j])
  {
    forall j | 0 <= j < |k.runs| ensures RunEvolves(k.runs[j], k.runs[i := r][j]) {
    }
  }

  lemma {:induction false} StepIsOk<P, R>(k: Kit<P, R>, e: KitEvent<P, R>)
    requires KitInv(k)
    ensures var k' := Step(k, e);
            && KitInv(k') && k.now <= k'.now && k.policy == k'.policy && |k.runs| <= |k'.runs|
            && forall i :: 0 <= i < |k.runs| ==> RunEvolves(k.runs[i], k'.runs[i])
  {
    forall i | 0 <= i < |k.runs| ensures RunEvolves(k.runs[i], k.runs[i]) {
    }
    match e
    case Advance(_) =>
    case Submitted(plan) =>
      if plan.Some? {
        SubmittedIsOk(k, plan.value);
      }
    case Delivered(selected, end) =>
      FirstDueIsFirst(k.runs, selected, k.now);
      var s := FirstDue(k.runs, selected, k.now);
      if s.Some? {
        InvokedIsOk(k.runs[s.value.run], s.value.unit, end, k.now, k.policy, false);
        ReplaceRun(k, s.value.run, Invoked(k.runs[s.value.run], s.value.unit, end, k.now, k.policy, false));
      }
    case Redelivered(s, selected, key, end) =>
      if Redeliverable(k.runs, selected, key, s) {
        InvokedIsOk(k.runs[s.run], s.unit, end, k.now, k.policy, true);
        ReplaceRun(k, s.run, Invoked(k.runs[s.run], s.unit, end, k.now, k.policy, true));
      }
    case CancelRun(i) =>
      if i < |k.runs| {
        CancelledIsOk(k.runs[i]);
        ReplaceRun(k, i, CancelledRun(k.runs[i]));
      }
  }

  lemma {:induction false} SubmittedIsOk<P, R>(k: Kit<P, R>, plan: seq<ExecutionUnit<P>>)
    requires KitInv(k)
    ensures KitInv(Submit(k, Some(plan)))
    ensures k.runs <= Submit(k, Some(plan)).runs
  {
    var units := FreshUnits<P, R>(plan);
    forall i | 0 <= i < |units| ensures UnitOk(units[i], false) {
      FreshUnitsAt<P, R>(plan, i);
    }
    assert RunOk(KitRun(k.counter + 1, units, [], false));
  }

  lemma {:induction false} EvolvesTransitively<P, R>(a: KitRun<P, R>, b: KitRun<P, R>, c: KitRun<P, R>)
    requires RunEvolves(a, b) && RunEvolves(b, c)
    ensures RunEvolves(a, c)
  {
    forall i | 0 <= i < |a.units| ensures UnitEvolves(a.units[i], c.units[i]) {
      assert UnitEvolves(a.units[i], b.units[i]) && UnitEvolves(b.units[i], c.units[i]);
    }
  }

  /** Any schedule keeps the invariant, and its runs only evolve. */
  lemma {:induction false} RunIsOk<P, R>(k: Kit<P, R>, es: seq<KitEvent<P, R>>)
    requires KitInv(k)
    ensures var k' := Run(k, es);
            && KitInv(k') && k.policy == k'.policy && |k.runs| <= |k'.runs|
            && forall i :: 0 <= i < |k.runs| ==> RunEvolves(k.runs[i], k'.runs[i])
  {
    if es == [] {
      forall i | 0 <= i < |k.runs| ensures RunEvolves(k.runs[i], k.runs[i]) {
      }
    } else {
      var n := |es| - 1;
      var mid, k' := Run(k, es[..n]), Run(k, es);
      RunIsOk(k, es[..n]);
      StepIsOk(mid, es[n]);
      forall i | 0 <= i < |k.runs| ensures RunEvolves(k.runs[i], k'.runs[i]) {
        EvolvesTransitively(k.runs[i], mid.runs[i], k'.runs[i]);
      }
    }
  }

  // ---- verdicts ----

  /** Some unit has one of these statuses. */
  predicate AnyIn<P, R>(units: seq<KitUnit<P, R>>, statuses: set<UnitStatus>) {
    exists i :: 0 <= i < |units| && units[i].status in statuses
  }

  /** What each verdict says of the units: exactly one of the four fits. */
  ghost predicate VerdictFits<P, R>(r: KitRun<P, R>, verdict: RunStatus) {
    && (verdict == FiniteTables.RunSucceeded <==> forall i :: 0 <= i < |r.units| ==> r.units[i].status == FiniteTables.Succeeded)
    && (verdict == FiniteTables.RunFailed <==> AnyIn(r.units, {FiniteTables.Failed, FiniteTables.DeadLettered}))
    && (verdict == FiniteTables.RunCancelled <==>
        && !AnyIn(r.units, {FiniteTables.Failed, FiniteTables.DeadLettered})
        && (AnyIn(r.units, {FiniteTables.Cancelled}) ||
            (r.cancelled && AnyIn(r.units, {FiniteTables.UnitPending, FiniteTables.Ready, FiniteTables.Running, FiniteTables.RetryScheduled}))))
    && (verdict == FiniteTables.RunRunning <==>
        && !r.cancelled && !AnyIn(r.units, {FiniteTables.Failed, FiniteTables.DeadLettered, FiniteTables.Cancelled})
        && AnyIn(r.units, {FiniteTables.UnitPending, FiniteTables.Ready, FiniteTables.Running, FiniteTables.RetryScheduled}))
  }

  lemma {:induction false} VerdictIsOfTheUnits<P, R>(r: KitRun<P, R>)
    ensures VerdictFits(r, StatusOf(r))
  {
    var open := {FiniteTables.UnitPending, FiniteTables.Ready, FiniteTables.Running, FiniteTables.RetryScheduled};
    assert AnyIn(r.units, {FiniteTables.Failed, FiniteTables.DeadLettered}) <==>
           HasStatus(r.units, FiniteTables.Failed) || HasStatus(r.units, FiniteTables.DeadLettered);
    assert AnyIn(r.units, {FiniteTables.Cancelled}) <==> HasStatus(r.units, FiniteTables.Cancelled);
    if !AllSucceeded(r.units) {
      var i :| 0 <= i < |r.units| && !r.units[i].status.Succeeded?;
      assert r.units[i].status in open + {FiniteTables.Failed, FiniteTables.DeadLettered, FiniteTables.Cancelled};
    }
  }

  /** The results of some units are those at these positions, in plan order. */
  ghost predicate ResultsAt<P, R>(units: seq<KitUnit<P, R>>, results: seq<R>, at: seq<nat>) {
    && |at| == |results| && (forall i, j :: 0 <= i < j < |at| ==> at[i] < at[j])
    && (forall i :: 0 <= i < |at| ==>
        at[i] < |units| && units[at[i]].status == FiniteTables.Succeeded && units[at[i]].result == Some(results[i]))
    && (forall n :: 0 <= n < |units| && units[n].status == FiniteTables.Succeeded && units[n].result.Some? ==> n in at)
  }

  lemma {:induction false} ResultsAreAt<P, R>(units: seq<KitUnit<P, R>>) returns (at: seq<nat>)
    ensures ResultsAt(units, Results(units), at)
  {
    if units == [] {
      at := [];
    } else {
      var n := |units| - 1;
      at := ResultsAreAt(units[..n]);
      ResultsGrow(units, Results(units[..n]), at);
      if units[n].status.Succeeded? && units[n].result.Some? {
        at := at + [n];
      }
    }
  }

  lemma {:induction false} ResultsGrow<P, R>(units: seq<KitUnit<P, R>>, results: seq<R>, at: seq<nat>)
    requires units != [] && ResultsAt(units[..|units| - 1], results, at)
    ensures var u := units[|units| - 1];
            if u.status.Succeeded? && u.result.Some? then ResultsAt(units, results + [u.result.value], at + [|units| - 1])
            else ResultsAt(units, results, at)
  {
    var n := |units| - 1;
    var front, u := units[..n], units[n];
    assert forall m :: 0 <= m < n ==> front[m] == units[m];
    if u.status.Succeeded? && u.result.Some? {
      var more := at + [n];
      forall m | 0 <= m < |units| && units[m].status == FiniteTables.Succeeded && units[m].result.Some? ensures m in more {
        if m < n {
          assert front[m] == units[m] && m in at;
        } else {
          assert more[|at|] == m;
        }
      }
    }
  }

  ghost predicate AllTerminal<P, R>(units: seq<KitUnit<P, R>>) {
    forall i :: 0 <= i < |units| ==> Terminal(units[i].status)
  }

  /** A caller can see from the run alone that its verdict cannot change any more. */
  ghost predicate Final<P, R>(r: KitRun<P, R>) {
    AllTerminal(r.units) || StatusOf(r).RunFailed?
  }

  lemma {:induction false} FinalStays<P, R>(r: KitRun<P, R>, r': KitRun<P, R>)
    requires RunOk(r) && RunEvolves(r, r') && Final(r)
    ensures StatusOf(r') == StatusOf(r) && Final(r')
  {
    var failed := HasStatus(r.units, FiniteTables.Failed) || HasStatus(r.units, FiniteTables.DeadLettered);
    if failed {
      var i :| 0 <= i < |r.units| && (r.units[i].status.Failed? || r.units[i].status.DeadLettered?);
      assert UnitEvolves(r.units[i], r'.units[i]);
      assert r'.units[i].status == r.units[i].status;
    } else {
      forall i | 0 <= i < |r.units| ensures r'.units[i].status == r.units[i].status {
        assert UnitEvolves(r.units[i], r'.units[i]);
      }
      NobodyPending(r, r');
    }
  }

  lemma {:induction false} NobodyPending<P, R>(r: KitRun<P, R>, r': KitRun<P, R>)
    requires AllTerminal(r.units) && RunEvolves(r, r')
    requires forall i :: 0 <= i < |r.units| ==> r'.units[i].status == r.units[i].status
    ensures StatusOf(r') == StatusOf(r) && AllTerminal(r'.units)
  {
    assert forall s :: HasStatus(r.units, s) ==> HasStatus(r'.units, s);
    assert forall s :: HasStatus(r'.units, s) ==> HasStatus(r.units, s);
    if !AllSucceeded(r.units) {
      var i :| 0 <= i < |r.units| && !r.units[i].status.Succeeded?;
      assert !r'.units[i].status.Succeeded?;
      assert HasStatus(r.units, r.units[i].status);
    }
  }

  /** The verdict of a final run is the same in every future of the kit. */
  lemma {:induction false} FinalVerdictsStay<P, R>(k: Kit<P, R>, es: seq<KitEvent<P, R>>, i: nat)
    requires KitInv(k) && i < |k.runs| && Final(k.runs[i])
    ensures i < |Run(k, es).runs| && StatusOf(Run(k, es).runs[i]) == StatusOf(k.runs[i])
  {
    RunIsOk(k, es);
    FinalStays(k.runs[i], Run(k, es).runs[i]);
  }

  /** A run that is not final still can fail: let its first pending unit come due and fail for good. */
  function FailIt<P, R>(k: Kit<P, R>, i: nat, wait: nat): seq<KitEvent<P, R>>
    requires i < |k.runs|
  {
    [Advance(wait), Delivered(Some(k.runs[i].id), Raised(PermanentError))]
  }

  lemma {:induction false} UnfinishedRunsCanFail<P, R>(k: Kit<P, R>, i: nat)
    requires KitInv(k) && i < |k.runs| && !Final(k.runs[i])
    ensures exists wait: nat ::
              i < |Run(k, FailIt(k, i, wait)).runs| && StatusOf(Run(k, FailIt(k, i, wait)).runs[i]) == FiniteTables.RunFailed
    ensures StatusOf(k.runs[i]) != FiniteTables.RunFailed
  {
    var j :| 0 <= j < |k.runs[i].units| && !Terminal(k.runs[i].units[j].status);
    var u := k.runs[i].units[j];
    assert UnitOk(u, k.runs[i].cancelled);
    var wait: nat := if u.nextAttemptAt <= k.now then 0 else u.nextAttemptAt - k.now;
    var later := Step(k, Advance(wait));
    var es := FailIt(k, i, wait);
    assert es[..1] == [Advance(wait)] && es[..1][..0] == [];
    assert Run(k, es[..1]) == later;
    assert es[..|es| - 1] == es[..1] && Run(k, es) == Step(later, es[1]);
    FirstDueIsFirst(later.runs, Some(k.runs[i].id), later.now);
    assert DueSpot(later.runs, Some(k.runs[i].id), later.now, Spot(i, j));
    var s := FirstDue(later.runs, Some(k.runs[i].id), later.now).value;
    assert s.run == i;
    FailedOne(k.runs[i], s.unit, later.now, k.policy);
  }

  lemma {:induction false} FailedOne<P, R>(r: KitRun<P, R>, j: nat, now: int, policy: Policy)
    requires RunOk(r) && j < |r.units| && FiniteTables.Claimable(r.units[j].status)
    ensures StatusOf(Invoked(r, j, Raised(PermanentError), now, policy, false)) == FiniteTables.RunFailed
  {
    assert UnitOk(r.units[j], r.cancelled);
    var r' := Invoked(r, j, Raised(PermanentError), now, policy, false);
    assert r'.units[j].status == FiniteTables.Failed;
    assert HasStatus(r'.units, FiniteTables.Failed);
  }

  // ---- one invocation ----

  /** What became of the invoked unit, for a call that ended as `end`. */
  predicate EndsAs<P, R>(u: KitUnit<P, R>, status: UnitStatus, end: HandlerEnd<R>) {
    var final := end.Returned? || end.error.CancelledError? || end.error.PermanentError?;
    && (status == FiniteTables.Succeeded <==> end.Returned?)
    && (status == FiniteTables.Cancelled <==> end.Raised? && end.error.CancelledError?)
    && (status == FiniteTables.Failed <==> end.Raised? && end.error.PermanentError?)
    && (status == FiniteTables.DeadLettered <==> !final && u.attempts + 1 >= u.unit.maxAttempts)
    && (status == FiniteTables.RetryScheduled <==> !final && u.attempts + 1 < u.unit.maxAttempts)
  }

  /** A retry is due when a rate limit asked for it, and after its backoff otherwise; nothing else moves the due time. */
  function DueNext<P, R>(u: KitUnit<P, R>, end: HandlerEnd<R>, now: int, policy: Policy): int {
    if end.Returned? || end.error.CancelledError? || end.error.PermanentError? || u.attempts + 1 >= u.unit.maxAttempts then u.nextAttemptAt
    else if end.error.RateLimitedError? then now + end.error.retryAfter
    else now + BackoffDelay(u.attempts + 1, policy)
  }

  /** What one call of a handler leaves of its unit and of the log; the handler of a cancelled run is not reached. */
  ghost predicate Leaves<P, R>(r: KitRun<P, R>, u: KitUnit<P, R>, u': KitUnit<P, R>, record: AttemptRecord<R>, end: HandlerEnd<R>,
                               now: int, policy: Policy, duplicate: bool) {
    var ended := if r.cancelled then Raised(CancelledError) else end;
    && record == AttemptRecord(r.id, u.unit.key, u.attempts + 1, record.status, if ended.Returned? then Some(ended.value) else None,
                               if ended.Raised? then Some(ended.error) else None, duplicate)
    && u' == (if duplicate then u.(attempts := u.attempts + 1)
              else KitUnit(u.unit, record.status, u.attempts + 1, DueNext(u, ended, now, policy),
                           if ended.Returned? then Some(ended.value) else u.result))
    && EndsAs(u, record.status, ended)
  }

  lemma {:induction false} SettledLeaves<P, R>(r: KitRun<P, R>, u: KitUnit<P, R>, end: HandlerEnd<R>, now: int, policy: Policy, duplicate: bool)
    ensures var ended := EffectiveEnd(r, end);
            Leaves(r, u, Settled(u, ended, now, policy, duplicate), RecordOf(r, u, ended, duplicate), end, now, policy, duplicate)
  {
    var ended := EffectiveEnd(r, end);
    assert EndsAs(u, Verdict(ended, u.attempts + 1, u.unit.maxAttempts), ended);
  }

  /** One unit and the log of its run changed as the call left them, and nothing else. */
  ghost predicate LeavesAt<P, R>(before: seq<KitRun<P, R>>, after: seq<KitRun<P, R>>, s: Spot, record: AttemptRecord<R>, end: HandlerEnd<R>,
                                 now: int, policy: Policy, duplicate: bool) {
    && s.run < |before| && s.unit < |before[s.run].units| && |after| == |before| && |after[s.run].units| == |before[s.run].units|
    && var r, u' := before[s.run], after[s.run].units[s.unit];
       && after == before[s.run := KitRun(r.id, r.units[s.unit := u'], r.attempts + [record], r.cancelled)]
       && Leaves(r, r.units[s.unit], u', record, end, now, policy, duplicate)
  }

  /** An invocation adds one record and one attempt; a first delivery lands its unit, a duplicate leaves it as it was. */
  lemma {:induction false} InvocationLands<P, R>(k: Kit<P, R>, s: Spot, end: HandlerEnd<R>, duplicate: bool)
    requires InKit(k.runs, s)
    ensures var k' := InvokeAt(k, s, end, duplicate);
            && k' == k.(runs := k'.runs) && |k'.runs| == |k.runs| && |k'.runs[s.run].attempts| == |k.runs[s.run].attempts| + 1
            && LeavesAt(k.runs, k'.runs, s, k'.runs[s.run].attempts[|k.runs[s.run].attempts|], end, k.now, k.policy, duplicate)
  {
    SettledLeaves(k.runs[s.run], UnitAt(k.runs, s), end, k.now, k.policy, duplicate);
  }

  // ---- redelivery ----

  /** A duplicate delivery is logged and counted and changes nothing else, whatever its handler does this time. */
  lemma {:induction false} RedeliveryOnlyLogs<P, R>(k: Kit<P, R>, s: Spot, selected: Option<nat>, key: string,
                                                    end: HandlerEnd<R>)
    requires KitInv(k) && Redeliverable(k.runs, selected, key, s)
    ensures var k' := Step(k, Redelivered(s, selected, key, end));
            && k' == k.(runs := k'.runs) && |k'.runs| == |k.runs|
            && (forall i :: 0 <= i < |k.runs| ==> SameView(k.runs[i], k'.runs[i]))
            && k'.runs[s.run].attempts == k.runs[s.run].attempts + [k'.runs[s.run].attempts[|k.runs[s.run].attempts|]]
            && k'.runs[s.run].attempts[|k.runs[s.run].attempts|].duplicate
            && forall i :: 0 <= i < |k.runs| && i != s.run ==> k'.runs[i] == k.runs[i]
  {
    var k' := Step(k, Redelivered(s, selected, key, end));
    forall i | 0 <= i < |k.runs| ensures SameView(k.runs[i], k'.runs[i]) {
      SameUnitsSameView(k.runs[i], k'.runs[i]);
    }
  }

  /** Same statuses, same results, same verdict, same due times. */
  ghost predicate SameView<P, R>(r: KitRun<P, R>, r': KitRun<P, R>) {
    && r'.id == r.id && r'.cancelled == r.cancelled && |r'.units| == |r.units|
    && (forall i :: 0 <= i < |r.units| ==> r'.units[i] == r.units[i].(attempts := r'.units[i].attempts))
    && StatusOf(r') == StatusOf(r) && Results(r'.units) == Results(r.units)
  }

  lemma {:induction false} SameUnitsSameView<P, R>(r: KitRun<P, R>, r': KitRun<P, R>)
    requires r'.id == r.id && r'.cancelled == r.cancelled && |r'.units| == |r.units|
    requires forall i :: 0 <= i < |r.units| ==> r'.units[i] == r.units[i].(attempts := r'.units[i].attempts)
    ensures SameView(r, r')
  {
    assert forall s :: HasStatus(r.units, s) <==> HasStatus(r'.units, s) by {
      forall s ensures HasStatus(r.units, s) <==> HasStatus(r'.units, s) {
        SameStatuses(r.units, r'.units, s);
        SameStatuses(r'.units, r.units, s);
      }
    }
    SameResults(r.units, r'.units);
  }

  lemma {:induction false} SameStatuses<P, R>(a: seq<KitUnit<P, R>>, b: seq<KitUnit<P, R>>, s: UnitStatus)
    requires |a| == |b| && forall i :: 0 <= i < |a| ==> a[i].status == b[i].status
    ensures HasStatus(a, s) ==> HasStatus(b, s)
  {
    if HasStatus(a, s) {
      var i :| 0 <= i < |a| && a[i].status == s;
      assert b[i].status == s;
    }
  }

  lemma {:induction false} SameResults<P, R>(a: seq<KitUnit<P, R>>, b: seq<KitUnit<P, R>>)
    requires |a| == |b| && forall i :: 0 <= i < |a| ==> a[i].status == b[i].status && a[i].result == b[i].result
    ensures Results(a) == Results(b)
  {
    if a != [] {
      SameResults(a[..|a| - 1], b[..|b| - 1]);
    }
  }

  // ---- the budget ----

  /** The attempts a unit may still make. */
  function Left<P, R>(u: KitUnit<P, R>): (n: nat) {
    if FiniteTables.Claimable(u.status) && u.attempts < u.unit.maxAttempts then u.unit.maxAttempts - u.attempts else 0
  }

  function Budget<P, R>(units: seq<KitUnit<P, R>>): nat {
    if units == [] then 0 else Budget(units[..|units| - 1]) + Left(units[|units| - 1])
  }

  function TotalBudget<P, R>(runs: seq<KitRun<P, R>>): nat {
    if runs == [] then 0 else TotalBudget(runs[..|runs| - 1]) + Budget(runs[|runs| - 1].units)
  }

  lemma {:induction false} BudgetOfOneChange<P, R>(units: seq<KitUnit<P, R>>, i: nat, u: KitUnit<P, R>)
    requires i < |units|
    ensures Budget(units[i := u]) == Budget(units) - Left(units[i]) + Left(u)
  {
    var n := |units| - 1;
    if i < n {
      BudgetOfOneChange(units[..n], i, u);
      assert units[i := u][..n] == units[..n][i := u];
    } else {
      assert units[i := u][..n] == units[..n];
    }
  }

  lemma {:induction false} TotalOfOneChange<P, R>(runs: seq<KitRun<P, R>>, i: nat, r: KitRun<P, R>)
    requires i < |runs|
    ensures TotalBudget(runs[i := r]) == TotalBudget(runs) - Budget(runs[i].units) + Budget(r.units)
  {
    var n := |runs| - 1;
    if i < n {
      TotalOfOneChange(runs[..n], i, r);
      assert runs[i := r][..n] == runs[..n][i := r];
    } else {
      assert runs[i := r][..n] == runs[..n];
    }
  }

  /** A delivery spends at least one attempt of the budget, at any time and however its handler ends. */
  lemma {:induction false} DeliverySpendsBudget<P, R>(k: Kit<P, R>, s: Spot, end: HandlerEnd<R>)
    requires KitInv(k) && InKit(k.runs, s) && FiniteTables.Claimable(UnitAt(k.runs, s).status)
    ensures TotalBudget(InvokeAt(k, s, end, false).runs) < TotalBudget(k.runs)
  {
    var r := k.runs[s.run];
    assert UnitOk(r.units[s.unit], r.cancelled);
    var r' := Invoked(r, s.unit, end, k.now, k.policy, false);
    BudgetOfOneChange(r.units, s.unit, r'.units[s.unit]);
    TotalOfOneChange(k.runs, s.run, r');
  }

  lemma {:induction false} CancellingFreesBudget<P, R>(units: seq<KitUnit<P, R>>)
    ensures Budget(CancelUnits(units)) == 0
  {
    if units != [] {
      var n := |units| - 1;
      CancellingFreesBudget(units[..n]);
      assert CancelUnits(units)[..n] == CancelUnits(units[..n]);
    }
  }

  function Allowance<P>(plan: seq<ExecutionUnit<P>>): nat {
    if plan == [] then 0 else Allowance(plan[..|plan| - 1]) + plan[|plan| - 1].maxAttempts
  }

  lemma {:induction false} FreshBudget<P, R>(plan: seq<ExecutionUnit<P>>)
    ensures Budget(FreshUnits<P, R>(plan)) == Allowance(plan)
  {
    if plan != [] {
      var n := |plan| - 1;
      FreshBudget<P, R>(plan[..n]);
      assert FreshUnits<P, R>(plan)[..n] == FreshUnits<P, R>(plan[..n]);
    }
  }

  /** What submissions of a schedule bring in. */
  function Granted<P, R>(es: seq<KitEvent<P, R>>): nat {
    if es == [] then 0
    else
      var e := es[|es| - 1];
      Granted(es[..|es| - 1]) + if e.Submitted? && e.plan.Some? then Allowance(e.plan.value) else 0
  }

  /** The deliveries of a schedule that reached a unit. */
  ghost function Deliveries<P, R>(k: Kit<P, R>, es: seq<KitEvent<P, R>>): nat {
    if es == [] then 0
    else
      var mid := Run(k, es[..|es| - 1]);
      var e := es[|es| - 1];
      Deliveries(k, es[..|es| - 1]) + if e.Delivered? && FirstDue(mid.runs, e.selected, mid.now).Some? then 1 else 0
  }

  lemma {:induction false} StepAccounts<P, R>(k: Kit<P, R>, e: KitEvent<P, R>)
    requires KitInv(k)
    ensures var spent := if e.Delivered? && FirstDue(k.runs, e.selected, k.now).Some? then 1 else 0;
            var gained := if e.Submitted? && e.plan.Some? then Allowance(e.plan.value) else 0;
            TotalBudget(Step(k, e).runs) + spent <= TotalBudget(k.runs) + gained
  {
    match e
    case Advance(_) =>
    case Submitted(plan) =>
      if plan.Some? {
        FreshBudget<P, R>(plan.value);
        var runs := Submit(k, plan).runs;
        assert runs[..|runs| - 1] == k.runs;
      }
    case Delivered(selected, end) =>
      FirstDueIsFirst(k.runs, selected, k.now);
      var s := FirstDue(k.runs, selected, k.now);
      if s.Some? {
        DeliverySpendsBudget(k, s.value, end);
      }
    case Redelivered(s, selected, key, end) =>
      if Redeliverable(k.runs, selected, key, s) {
        var r := k.runs[s.run];
        var r' := Invoked(r, s.unit, end, k.now, k.policy, true);
        BudgetOfOneChange(r.units, s.unit, r'.units[s.unit]);
        TotalOfOneChange(k.runs, s.run, r');
      }
    case CancelRun(i) =>
      if i < |k.runs| {
        CancellingFreesBudget(k.runs[i].units);
        TotalOfOneChange(k.runs, i, CancelledRun(k.runs[i]));
      }
  }

  /**
   However calls, clock advances, redeliveries and cancellations are mixed, the deliveries that reach a unit are
   at most the attempts the submitted plans allow.
   */
  lemma {:induction false} DeliveriesAreBounded<P, R>(k: Kit<P, R>, es: seq<KitEvent<P, R>>)
    requires KitInv(k)
    ensures Deliveries(k, es) + TotalBudget(Run(k, es).runs) <= TotalBudget(k.runs) + Granted(es)
  {
    if es != [] {
      var n := |es| - 1;
      DeliveriesAreBounded(k, es[..n]);
      RunIsOk(k, es[..n]);
      StepAccounts(Run(k, es[..n]), es[n]);
    }
  }
}
