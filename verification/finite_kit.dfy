/**
 The deterministic test kit for finite workloads (testing/finite.py) over values: runs with their units and
 attempt logs, and one function per call of the kit. A handler invocation is its outcome.
 */
module FiniteKitTables {
  import opened Wrappers
  import opened Retry
  import opened Planning
  import FiniteTables

  type UnitStatus = FiniteTables.UnitStatus

  type RunStatus = FiniteTables.RunStatus

  /** How one handler call ends; `R` is the type of its results. */
  datatype HandlerEnd<+R> = Returned(value: R) | Raised(error: ErrorClass)

  datatype KitUnit<+P, +R> = KitUnit(unit: ExecutionUnit<P>, status: UnitStatus, attempts: nat, nextAttemptAt: int, result: Option<R>)

  datatype AttemptRecord<+R> = AttemptRecord(
    run: nat, key: string, attempt: nat, status: UnitStatus, result: Option<R>, error: Option<ErrorClass>, duplicate: bool)

  datatype KitRun<+P, +R> = KitRun(id: nat, units: seq<KitUnit<P, R>>, attempts: seq<AttemptRecord<R>>, cancelled: bool)

  /** The kit: its clock, its policy, its run counter and its runs in submission order. */
  datatype Kit<+P, +R> = Kit(now: int, policy: Policy, counter: nat, runs: seq<KitRun<P, R>>)

  /** A unit of a run, by position. */
  datatype Spot = Spot(run: nat, unit: nat)

  predicate InKit<P, R>(runs: seq<KitRun<P, R>>, s: Spot) {
    s.run < |runs| && s.unit < |runs[s.run].units|
  }

  function UnitAt<P, R>(runs: seq<KitRun<P, R>>, s: Spot): KitUnit<P, R>
    requires InKit(runs, s)
  {
    runs[s.run].units[s.unit]
  }

  predicate Terminal(s: UnitStatus) {
    s.Succeeded? || s.Failed? || s.DeadLettered? || s.Cancelled?
  }

  predicate UnitDue<P, R>(u: KitUnit<P, R>, now: int) {
    FiniteTables.Claimable(u.status) && u.nextAttemptAt <= now
  }

  /** `run_id` restricts a call to one run; without it every run is selected. */
  predicate Selects<P, R>(selected: Option<nat>, r: KitRun<P, R>) {
    selected.None? || selected.value == r.id
  }

  predicate DueSpot<P, R>(runs: seq<KitRun<P, R>>, selected: Option<nat>, now: int, s: Spot) {
    InKit(runs, s) && Selects(selected, runs[s.run]) && UnitDue(UnitAt(runs, s), now)
  }

  /** Run order, then plan order. */
  predicate Precedes(a: Spot, b: Spot) {
    a.run < b.run || (a.run == b.run && a.unit < b.unit)
  }

  // ---- one invocation ----

  /** The status one finished attempt is recorded with. */
  function Verdict<R>(end: HandlerEnd<R>, attempt: nat, maxAttempts: int): UnitStatus {
    match end
    case Returned(_) => FiniteTables.Succeeded
    case Raised(CancelledError) => FiniteTables.Cancelled
    case Raised(PermanentError) => FiniteTables.Failed
    case Raised(_) => if attempt >= maxAttempts then FiniteTables.DeadLettered else FiniteTables.RetryScheduled
  }

  /** The kit waits what a rate limit asks for, and its own backoff otherwise. */
  function RetryWait(e: ErrorClass, attempt: nat, policy: Policy): int {
    if e.RateLimitedError? then e.retryAfter else BackoffDelay(attempt, policy)
  }

  /** A cancelled run never reaches its handler. */
  function EffectiveEnd<P, R>(r: KitRun<P, R>, end: HandlerEnd<R>): HandlerEnd<R> {
    if r.cancelled then Raised(CancelledError) else end
  }

  function Settled<P, R>(u: KitUnit<P, R>, end: HandlerEnd<R>, now: int, policy: Policy, duplicate: bool): KitUnit<P,
                         R> {
    var attempt := u.attempts + 1;
    if duplicate then u.(attempts := attempt)
    else
      var status := Verdict(end, attempt, u.unit.maxAttempts);
      u.(attempts := attempt, status := status,
         nextAttemptAt := if status.RetryScheduled? then now + RetryWait(end.error, attempt, policy) else u.nextAttemptAt,
         result := if end.Returned? then Some(end.value) else u.result)
  }

  function RecordOf<P, R>(r: KitRun<P, R>, u: KitUnit<P, R>, end: HandlerEnd<R>, duplicate: bool): AttemptRecord<R> {
    AttemptRecord(r.id, u.unit.key, u.attempts + 1, Verdict(end, u.attempts + 1, u.unit.maxAttempts),
                  if end.Returned? then Some(end.value) else None, if end.Raised? then Some(end.error) else None, duplicate)
  }

  function Invoked<P, R>(r: KitRun<P, R>, i: nat, end: HandlerEnd<R>, now: int, policy: Policy, duplicate: bool): KitRun<P, R>
    requires i < |r.units|
  {
    var e := EffectiveEnd(r, end);
    r.(units := r.units[i := Settled(r.units[i], e, now, policy, duplicate)],
       attempts := r.attempts + [RecordOf(r, r.units[i], e, duplicate)])
  }

  function InvokeAt<P, R>(k: Kit<P, R>, s: Spot, end: HandlerEnd<R>, duplicate: bool): Kit<P, R>
    requires InKit(k.runs, s)
  {
    k.(runs := k.runs[s.run := Invoked(k.runs[s.run], s.unit, end, k.now, k.policy, duplicate)])
  }

  // ---- choosing ----

  function FirstDueUnit<P, R>(units: seq<KitUnit<P, R>>, now: int): Option<nat> {
    if units == [] then None
    else
      var earlier := FirstDueUnit(units[..|units| - 1], now);
      if earlier.Some? then earlier else if UnitDue(units[|units| - 1], now) then Some(|units| - 1) else None
  }

  function FirstDue<P, R>(runs: seq<KitRun<P, R>>, selected: Option<nat>, now: int): Option<Spot> {
    if runs == [] then None
    else
      var n := |runs| - 1;
      var earlier := FirstDue(runs[..n], selected, now);
      if earlier.Some? then earlier
      else
        var u := if Selects(selected, runs[n]) then FirstDueUnit(runs[n].units, now) else None;
        if u.Some? then Some(Spot(n, u.value)) else None
  }

  /** The spots of a run, or of all of them, whose unit has a key. */
  predicate Matches<P, R>(runs: seq<KitRun<P, R>>, selected: Option<nat>, key: string, s: Spot) {
    InKit(runs, s) && Selects(selected, runs[s.run]) && UnitAt(runs, s).unit.key == key
  }

  predicate Knows<P, R>(runs: seq<KitRun<P, R>>, id: nat) {
    exists i :: 0 <= i < |runs| && runs[i].id == id
  }

  /** Redelivery needs exactly one match, and a completed unit. */
  ghost predicate Redeliverable<P, R>(runs: seq<KitRun<P, R>>, selected: Option<nat>, key: string, s: Spot) {
    && Matches(runs, selected, key, s) && Terminal(UnitAt(runs, s).status)
    && forall t :: Matches(runs, selected, key, t) ==> t == s
  }

  // ---- the calls ----

  function CancelUnit<P, R>(u: KitUnit<P, R>): KitUnit<P, R> {
    if Terminal(u.status) then u else u.(status := FiniteTables.Cancelled)
  }

  function CancelUnits<P, R>(units: seq<KitUnit<P, R>>): (us: seq<KitUnit<P, R>>)
    ensures |us| == |units|
  {
    if units == [] then [] else CancelUnits(units[..|units| - 1]) + [CancelUnit(units[|units| - 1])]
  }

  function CancelledRun<P, R>(r: KitRun<P, R>): KitRun<P, R> {
    r.(cancelled := true, units := CancelUnits(r.units))
  }

  function FreshUnits<P, R>(plan: seq<ExecutionUnit<P>>): (us: seq<KitUnit<P, R>>)
    ensures |us| == |plan|
  {
    if plan == [] then []
    else FreshUnits(plan[..|plan| - 1]) + [KitUnit(plan[|plan| - 1], FiniteTables.Ready, 0, 0, None)]
  }

  /** A submission counts even when its plan is rejected. */
  function Submit<P, R>(k: Kit<P, R>, plan: Option<seq<ExecutionUnit<P>>>): Kit<P, R> {
    var counted := k.(counter := k.counter + 1);
    if plan.None? then counted
    else counted.(runs := k.runs + [KitRun(k.counter + 1, FreshUnits(plan.value), [], false)])
  }

  datatype KitEvent<+P, +R> =
    | Advance(elapsed: nat)
    | Submitted(plan: Option<seq<ExecutionUnit<P>>>)
    | Delivered(selected: Option<nat>, end: HandlerEnd<R>)
    | Redelivered(spot: Spot, selected: Option<nat>, key: string, end: HandlerEnd<R>)
    | CancelRun(run: nat)

  ghost function Step<P, R>(k: Kit<P, R>, e: KitEvent<P, R>): Kit<P, R> {
    match e
    case Advance(elapsed) => k.(now := k.now + elapsed)
    case Submitted(plan) => Submit(k, plan)
    case Delivered(selected, end) =>
      var s := FirstDue(k.runs, selected, k.now);
      if s.Some? && InKit(k.runs, s.value) then InvokeAt(k, s.value, end, false) else k
    case Redelivered(s, selected, key, end) =>
      if Redeliverable(k.runs, selected, key, s) then InvokeAt(k, s, end, true) else k
    case CancelRun(i) => if i < |k.runs| then k.(runs := k.runs[i := CancelledRun(k.runs[i])]) else k
  }

  ghost function Run<P, R>(k: Kit<P, R>, es: seq<KitEvent<P, R>>): Kit<P, R> {
    if es == [] then k else Step(Run(k, es[..|es| - 1]), es[|es| - 1])
  }

  // ---- views ----

  predicate HasStatus<P, R>(units: seq<KitUnit<P, R>>, s: UnitStatus) {
    exists i :: 0 <= i < |units| && units[i].status == s
  }

  predicate AllSucceeded<P, R>(units: seq<KitUnit<P, R>>) {
    forall i :: 0 <= i < |units| ==> units[i].status.Succeeded?
  }

  function StatusOf<P, R>(r: KitRun<P, R>): RunStatus {
    if AllSucceeded(r.units) then FiniteTables.RunSucceeded
    else if HasStatus(r.units, FiniteTables.Failed) || HasStatus(r.units, FiniteTables.DeadLettered) then FiniteTables.RunFailed
    else if r.cancelled || HasStatus(r.units, FiniteTables.Cancelled) then FiniteTables.RunCancelled
    else FiniteTables.RunRunning
  }

  /** Results of succeeded units in plan order. */
  function Results<P, R>(units: seq<KitUnit<P, R>>): seq<R> {
    if units == [] then []
    else
      var u := units[|units| - 1];
      Results(units[..|units| - 1]) + if u.status.Succeeded? && u.result.Some? then [u.result.value] else []
  }
}
