/** The dispatcher (control/dispatcher.py): one wakeup for every retry that has come due. */
module Dispatching {
  import opened Wrappers
  import opened FiniteTables
  import opened FiniteProtocol
  import opened FiniteRefinement
  import FiniteStore

  const RETRY_BATCH: nat := 500

  /** ORDER BY next_attempt_at. */
  predicate DueBefore(db: Db, a: UnitId, b: UnitId) {
    && a in db.units && b in db.units && db.units[a].nextAttemptAt.Some? && db.units[b].nextAttemptAt.Some?
    && db.units[a].nextAttemptAt.value < db.units[b].nextAttemptAt.value
  }

  /** The rows of the query: distinct due retries in time order, all of them unless the batch is full. */
  ghost predicate DueRetries(db: Db, now: int, limit: nat, us: seq<UnitId>) {
    && |us| <= limit
    && (forall i, j :: 0 <= i < j < |us| ==> us[i] != us[j] && !DueBefore(db, us[j], us[i]))
    && (forall u :: u in us ==> RetryDue(db, now, u))
    && (forall v :: RetryDue(db, now, v) && v !in us ==> |us| == limit && forall u :: u in us ==> !DueBefore(db, v, u))
  }

  function EnqueueAll(db: Db, now: int, us: seq<UnitId>): Db {
    if us == [] then db else EnqueueRetry(EnqueueAll(db, now, us[..|us| - 1]), now, us[|us| - 1])
  }

  predicate HasWakeup(db: Db, u: UnitId) {
    u in db.units && RetryDispatch(u, db.units[u].attemptCount) in db.dispatch
  }

  /** The batch adds exactly one wakeup key for each of its units, the one of its current attempt. */
  lemma {:induction false} EnqueueAllAdds(db: Db, now: int, us: seq<UnitId>)
    requires forall u :: u in us ==> RetryDue(db, now, u)
    ensures var d := EnqueueAll(db, now, us);
            && d == db.(dispatch := d.dispatch) && db.dispatch <= d.dispatch
            && (forall u :: u in us ==> HasWakeup(d, u))
            && (forall k :: k in d.dispatch && k !in db.dispatch ==>
                k.RetryDispatch? && k.unit in us && k.attempt == db.units[k.unit].attemptCount)
  {
    if us != [] {
      var n := |us| - 1;
      EnqueueAllAdds(db, now, us[..n]);
      assert us[n] in us;
      assert forall u :: u in us <==> u in us[..n] || u == us[n];
    }
  }

  /**
   Cycling again at the same instant changes nothing when the first batch was not full: a due attempt gets one
   wakeup however often the dispatcher looks.
   */
  lemma {:induction false} CycleIsIdempotent(db: Db, now: int, limit: nat, us: seq<UnitId>, again: seq<UnitId>)
    requires DueRetries(db, now, limit, us) && |us| < limit
    requires DueRetries(EnqueueAll(db, now, us), now, limit, again)
    ensures EnqueueAll(EnqueueAll(db, now, us), now, again) == EnqueueAll(db, now, us)
    ensures forall u :: RetryDue(db, now, u) ==> HasWakeup(EnqueueAll(db, now, us), u)
  {
    var d := EnqueueAll(db, now, us);
    EnqueueAllAdds(db, now, us);
    forall u | RetryDue(d, now, u) ensures u in us && HasWakeup(d, u) {
      assert RetryDue(db, now, u);
    }
    NothingToAdd(d, now, again);
  }

  lemma {:induction false} NothingToAdd(db: Db, now: int, us: seq<UnitId>)
    requires forall u :: u in us ==> HasWakeup(db, u)
    ensures EnqueueAll(db, now, us) == db
  {
    if us != [] {
      assert us[|us| - 1] in us;
      NothingToAdd(db, now, us[..|us| - 1]);
    }
  }

  // ---- a batch that stays full ----

  /** A retry that is due, now or later. */
  predicate Scheduled(db: Db, u: UnitId) {
    && u in db.units && u in db.plan && u.run in db.runs
    && db.units[u].status.RetryScheduled? && db.units[u].nextAttemptAt.Some?
  }

  /** The retries that come due strictly before this one. */
  function Ahead(db: Db, u: UnitId): set<UnitId> {
    set v | v in db.units && Scheduled(db, v) && DueBefore(db, v, u)
  }

  /** Those that come due no later, itself left out. */
  function NotAfter(db: Db, u: UnitId): set<UnitId> {
    set v | v in db.units && v != u && Scheduled(db, v) && !DueBefore(db, u, v)
  }

  lemma {:induction false} DistinctIn(us: seq<UnitId>, all: set<UnitId>)
    requires forall i, j :: 0 <= i < j < |us| ==> us[i] != us[j]
    requires forall u :: u in us ==> u in all
    ensures |us| <= |all|
  {
    if us != [] {
      var n := |us| - 1;
      forall u | u in us[..n] ensures u in all - {us[n]} {
        var i :| 0 <= i < n && us[..n][i] == u;
        assert us[i] == u && us[i] != us[n];
      }
      assert us[n] in us;
      DistinctIn(us[..n], all - {us[n]});
    }
  }

  lemma {:induction false} CoveredBy(all: set<UnitId>, us: seq<UnitId>)
    requires forall u :: u in all ==> u in us
    ensures |all| <= |us|
  {
    if us == [] {
      assert all == {};
    } else {
      CoveredBy(all - {us[|us| - 1]}, us[..|us| - 1]);
      assert |all| <= |all - {us[|us| - 1]}| + 1;
    }
  }

  /** A batch behind which the retry does not fit leaves it out; a batch that must hold it does. */
  lemma BatchTakesTheFirst(db: Db, now: int, limit: nat, us: seq<UnitId>, u: UnitId)
    requires DueRetries(db, now, limit, us) && RetryDue(db, now, u)
    ensures |Ahead(db, u)| >= limit ==> u !in us
    ensures |NotAfter(db, u)| < limit ==> u in us
  {
    assert u !in Ahead(db, u);
    if u in us && |Ahead(db, u)| >= limit {
      forall v | v in Ahead(db, u) + {u} ensures v in us {
        assert v != u ==> RetryDue(db, now, v) && DueBefore(db, v, u);
      }
      CoveredBy(Ahead(db, u) + {u}, us);
    }
    if u !in us {
      DistinctIn(us, NotAfter(db, u));
    }
  }

  /** One of the retries that come due first. */
  lemma {:induction false} SomeFirst(db: Db, waiting: set<UnitId>) returns (first: UnitId)
    requires waiting != {} && forall v :: v in waiting ==> v in db.units && db.units[v].nextAttemptAt.Some?
    ensures first in waiting && forall v :: v in waiting ==> !DueBefore(db, v, first)
  {
    first :| first in waiting;
    if waiting != {first} {
      assert waiting - {first} != {};
      var other := SomeFirst(db, waiting - {first});
      assert forall v :: v in waiting && v != first ==> !DueBefore(db, v, other);
      if DueBefore(db, other, first) {
        first := other;
      }
    }
  }

  /** A batch in the making: the retries picked so far, in time order, and the due ones still waiting. */
  ghost predicate Picking(db: Db, now: int, us: seq<UnitId>, waiting: set<UnitId>) {
    && (forall i, j :: 0 <= i < j < |us| ==> us[i] != us[j] && !DueBefore(db, us[j], us[i]))
    && (forall v :: RetryDue(db, now, v) <==> v in waiting || v in us)
    && (forall v, w :: v in waiting && w in us ==> v != w && !DueBefore(db, v, w))
  }

  lemma PickOne(db: Db, now: int, us: seq<UnitId>, waiting: set<UnitId>, first: UnitId)
    requires Picking(db, now, us, waiting) && first in waiting && forall v :: v in waiting ==> !DueBefore(db, v, first)
    ensures Picking(db, now, us + [first], waiting - {first})
  {
  }

  /** One of those that come first, and this one as soon as none comes before it. */
  lemma FirstOrThis(db: Db, now: int, us: seq<UnitId>, waiting: set<UnitId>, u: UnitId) returns (first: UnitId)
    requires Picking(db, now, us, waiting) && waiting != {}
    ensures first in waiting && forall v :: v in waiting ==> !DueBefore(db, v, first)
    ensures u in waiting ==> first == u || DueBefore(db, first, u)
  {
    assert forall v :: v in waiting ==> RetryDue(db, now, v);
    first := SomeFirst(db, waiting);
    if u in waiting && !DueBefore(db, first, u) {
      first := u;
    }
  }

  /** The order leaves ties open, so some batch takes a retry that fewer than `limit` precede. */
  lemma BatchWith(db: Db, now: int, limit: nat, u: UnitId) returns (us: seq<UnitId>)
    requires RetryDue(db, now, u) && |Ahead(db, u)| < limit
    ensures DueRetries(db, now, limit, us) && u in us
  {
    var waiting := set v | v in db.units && RetryDue(db, now, v);
    us := [];
    while |us| < limit && waiting != {}
      invariant |us| <= limit && Picking(db, now, us, waiting)
      invariant u !in us ==> forall v :: v in us ==> v in Ahead(db, u)
      decreases waiting
    {
      var first := FirstOrThis(db, now, us, waiting, u);
      PickOne(db, now, us, waiting, first);
      waiting, us := waiting - {first}, us + [first];
    }
    if u !in us {
      DistinctIn(us, Ahead(db, u));
    }
  }

  /** One cycle: when it looked and which retries it took. */
  datatype Cycle = Cycle(now: int, us: seq<UnitId>)

  function AfterCycles(db: Db, cs: seq<Cycle>): Db {
    if cs == [] then db else EnqueueAll(AfterCycles(db, cs[..|cs| - 1]), cs[|cs| - 1].now, cs[|cs| - 1].us)
  }

  /** Each cycle takes a batch its query may return. */
  ghost predicate Cycling(db: Db, limit: nat, cs: seq<Cycle>) {
    cs == [] ||
    (Cycling(db, limit, cs[..|cs| - 1]) && DueRetries(AfterCycles(db, cs[..|cs| - 1]), cs[|cs| - 1].now, limit, cs[|cs| - 1].us))
  }

  lemma {:induction false} CyclesOnlyWake(db: Db, limit: nat, cs: seq<Cycle>)
    requires Cycling(db, limit, cs)
    ensures AfterCycles(db, cs) == db.(dispatch := AfterCycles(db, cs).dispatch) && db.dispatch <= AfterCycles(db, cs).dispatch
  {
    if cs != [] {
      CyclesOnlyWake(db, limit, cs[..|cs| - 1]);
      EnqueueAllAdds(AfterCycles(db, cs[..|cs| - 1]), cs[|cs| - 1].now, cs[|cs| - 1].us);
    }
  }

  /** A retry that `limit` others precede is never taken, however often the dispatcher looks. */
  lemma {:induction false} NeverTaken(db: Db, limit: nat, cs: seq<Cycle>, u: UnitId)
    requires Cycling(db, limit, cs) && Scheduled(db, u) && !HasWakeup(db, u) && |Ahead(db, u)| >= limit
    ensures !HasWakeup(AfterCycles(db, cs), u)
  {
    if cs != [] {
      var n := |cs| - 1;
      var mid := AfterCycles(db, cs[..n]);
      NeverTaken(db, limit, cs[..n], u);
      CyclesOnlyWake(db, limit, cs[..n]);
      EnqueueAllAdds(mid, cs[n].now, cs[n].us);
      assert Ahead(mid, u) == Ahead(db, u);
      if u in cs[n].us {
        BatchTakesTheFirst(mid, cs[n].now, limit, cs[n].us, u);
      }
    }
  }

  /** These cycles, and nothing else, give the retry its wakeup. */
  ghost predicate WokenBy(db: Db, limit: nat, cs: seq<Cycle>, u: UnitId) {
    Cycling(db, limit, cs) && HasWakeup(AfterCycles(db, cs), u)
  }

  lemma OneCycleWakes(db: Db, limit: nat, u: UnitId) returns (cs: seq<Cycle>)
    requires Scheduled(db, u) && |Ahead(db, u)| < limit
    ensures WokenBy(db, limit, cs, u)
  {
    var now := db.units[u].nextAttemptAt.value;
    var us := BatchWith(db, now, limit, u);
    cs := [Cycle(now, us)];
    assert cs[..|cs| - 1] == [];
    assert AfterCycles(db, []) == db && AfterCycles(db, cs) == EnqueueAll(db, now, us);
    EnqueueAllAdds(db, now, us);
  }

  /**
   Exactly which retries never get their wakeup by cycling alone, that is as long as nobody claims: those that at
   least `limit` others precede in time. The query takes the first `limit` due retries whether or not they already
   have a wakeup, so the same full batch comes back for ever.
   */
  lemma {:induction false} FullBatchesStarve(db: Db, limit: nat, u: UnitId)
    requires Scheduled(db, u) && !HasWakeup(db, u)
    ensures |Ahead(db, u)| >= limit <==> forall cs :: !WokenBy(db, limit, cs, u)
  {
    if |Ahead(db, u)| >= limit {
      forall cs ensures !WokenBy(db, limit, cs, u) {
        if WokenBy(db, limit, cs, u) {
          NeverTaken(db, limit, cs, u);
        }
      }
    } else {
      var cs := OneCycleWakes(db, limit, u);
    }
  }

  /** And a retry that fewer than `limit` others come due with or before is woken by every cycle from its time on. */
  lemma {:induction false} EarlyRetriesAreWoken(db: Db, limit: nat, cs: seq<Cycle>, now: int, us: seq<UnitId>, u: UnitId)
    requires Cycling(db, limit, cs + [Cycle(now, us)]) && Scheduled(db, u) && |NotAfter(db, u)| < limit
    requires db.units[u].nextAttemptAt.value <= now
    ensures HasWakeup(AfterCycles(db, cs + [Cycle(now, us)]), u)
  {
    var all := cs + [Cycle(now, us)];
    assert all[..|cs|] == cs;
    var mid := AfterCycles(db, cs);
    CyclesOnlyWake(db, limit, cs);
    assert NotAfter(mid, u) == NotAfter(db, u);
    BatchTakesTheFirst(mid, now, limit, us, u);
    EnqueueAllAdds(mid, now, us);
  }

  function Enqueues(us: seq<UnitId>): (es: seq<Event>)
    ensures |es| == |us|
  {
    if us == [] then [] else Enqueues(us[..|us| - 1]) + [Enqueue(us[|us| - 1])]
  }

  /** A batch is a run of the protocol's enqueue events, so the bounds on wakeups hold across cycles. */
  lemma {:induction false} BatchIsARun(s: System, us: seq<UnitId>)
    ensures Tables(Run(s, Enqueues(us))) == EnqueueAll(Tables(s), s.now, us) && Run(s, Enqueues(us)).now == s.now
  {
    if us != [] {
      var n := |us| - 1;
      BatchIsARun(s, us[..n]);
      assert Enqueues(us)[..n] == Enqueues(us[..n]);
      EnqueueRefines(Run(s, Enqueues(us[..n])), us[n]);
    }
  }

  /** A planned unit of a known run whose retry was scheduled and has come due. */
  predicate WaitsForWakeup(db: Db, now: int, u: UnitId) {
    && u in db.units && u in db.plan && u.run in db.runs && db.units[u].status == RetryScheduled
    && db.units[u].nextAttemptAt.Some? && db.units[u].nextAttemptAt.value <= now
  }

  /** The first 500 of them by due time, each once. */
  ghost predicate TakesDueFirst(db: Db, now: int, us: seq<UnitId>) {
    && |us| <= 500 && (forall u :: u in us ==> WaitsForWakeup(db, now, u))
    && (forall i, j :: 0 <= i < j < |us| ==> us[i] != us[j] && InDueOrder(db, us[i], us[j]))
    && (forall v :: WaitsForWakeup(db, now, v) && v !in us ==> |us| == 500 && forall u :: u in us ==> InDueOrder(db, u, v))
  }

  predicate InDueOrder(db: Db, a: UnitId, b: UnitId) {
    && a in db.units && b in db.units && db.units[a].nextAttemptAt.Some? && db.units[b].nextAttemptAt.Some?
    && db.units[a].nextAttemptAt.value <= db.units[b].nextAttemptAt.value
  }

  lemma BatchTakesDueFirst(db: Db, now: int, us: seq<UnitId>)
    requires DueRetries(db, now, RETRY_BATCH, us)
    ensures TakesDueFirst(db, now, us)
  {
    forall u ensures WaitsForWakeup(db, now, u) <==> RetryDue(db, now, u) {
    }
    assert forall i :: 0 <= i < |us| ==> us[i] in us && RetryDue(db, now, us[i]);
  }

  class DispatcherRunner {
    const store: FiniteStore.FiniteStateStore

    constructor (store: FiniteStore.FiniteStateStore)
      ensures this.store == store
    {
      this.store := store;
    }

    method EnqueueDueRetries(now: int) returns (count: nat, ghost us: seq<UnitId>)
      modifies store
      ensures DueRetries(old(store.Data()), now, RETRY_BATCH, us) && count == |us|
      ensures store.Data() == EnqueueAll(old(store.Data()), now, us)
      ensures TakesDueFirst(old(store.Data()), now, us)
      ensures store.dispatch == old(store.dispatch) + set u | u in us :: RetryDispatch(u, old(store.units)[u].attemptCount)
      ensures store.runs == old(store.runs) && store.plan == old(store.plan)
      ensures store.units == old(store.units) && store.attempts == old(store.attempts)
    {
      var rows := FetchDueRetries(now);
      us := rows;
      for i := 0 to |rows|
        invariant store.Data() == EnqueueAll(old(store.Data()), now, rows[..i])
      {
        assert rows[..i + 1][..i] == rows[..i];
        assert rows[i] in rows && forall u :: u in rows[..i] ==> u in rows;
        EnqueueAllAdds(old(store.Data()), now, rows[..i]);
        assert RetryDue(store.Data(), now, rows[i]);
        store.dispatch := store.dispatch + {RetryDispatch(rows[i], store.units[rows[i]].attemptCount)};
      }
      assert rows[..|rows|] == rows;
      EnqueueAllAdds(old(store.Data()), now, rows);
      BatchTakesDueFirst(old(store.Data()), now, rows);
      count := |rows|;
    }

    /** The due rows, picked one after the other. */
    method FetchDueRetries(now: int) returns (rows: seq<UnitId>)
      ensures DueRetries(store.Data(), now, RETRY_BATCH, rows)
    {
      var db := store.Data();
      var waiting := set u | u in store.units && RetryDue(db, now, u);
      rows := [];
      while |rows| < RETRY_BATCH && waiting != {}
        invariant |rows| <= RETRY_BATCH
        invariant forall i, j :: 0 <= i < j < |rows| ==> rows[i] != rows[j] && !DueBefore(db, rows[j], rows[i])
        invariant forall u :: RetryDue(db, now, u) <==> u in waiting || u in rows
        invariant forall v, u :: v in waiting && u in rows ==> v != u && !DueBefore(db, v, u)
        decreases waiting
      {
        var u := FirstDue(db, waiting);
        waiting := waiting - {u};
        rows := rows + [u];
      }
    }

    method FirstDue(db: Db, waiting: set<UnitId>) returns (first: UnitId)
      requires waiting != {}
      ensures first in waiting && forall v :: v in waiting ==> !DueBefore(db, v, first)
    {
      first :| first in waiting;
      var rest := waiting - {first};
      while rest != {}
        invariant first in waiting && rest <= waiting
        invariant forall v :: v in waiting - rest ==> !DueBefore(db, v, first)
        decreases rest
      {
        var v :| v in rest;
        rest := rest - {v};
        if DueBefore(db, v, first) {
          forall w | w in waiting - rest ensures !DueBefore(db, w, v) {
            assert w != v ==> !DueBefore(db, w, first);
          }
          first := v;
        }
      }
    }
  }
}
