/** The reconciler object (control/reconciler.py) with the worker registry it reads (state/workers.py). */
module Reconciliation {
  import opened Wrappers
  import opened ContinuousTables
  import opened Leases
  import opened Scheduling
  import opened Balance
  import opened Greedy
  import opened Sums
  import ContinuousStore

  datatype WorkerStatus = Active | Draining | Dead

  datatype Worker = Worker(status: WorkerStatus, lastHeartbeatAt: int, revision: string)

  datatype DeploymentStatus = DeploymentPending | DeploymentActive | DeploymentDraining | DeploymentStopped | DeploymentFailed

  datatype ReconcileResult = ReconcileResult(newlyAssigned: nat, reclaimed: nat, deactivated: nat, deadWorkers: nat)

  datatype ReconcileError = UnknownDeployment

  predicate Stale(w: Worker, now: int, seconds: int) {
    !w.status.Dead? && w.lastHeartbeatAt < now - seconds
  }

  predicate Live(workers: map<InstanceId, Worker>, i: InstanceId) {
    i in workers && workers[i].status.Active?
  }

  class WorkerRegistry {
    var workers: map<InstanceId, Worker>

    constructor ()
      ensures workers == map[]
    {
      workers := map[];
    }

    /** A draining mark survives heartbeats; any other worker is active again. The revision is kept unless one is given. */
    method Heartbeat(now: int, i: InstanceId, revision: Option<string>) returns (known: bool)
      modifies this
      ensures known <==> i in old(workers)
      ensures workers.Keys == old(workers.Keys)
      ensures forall j :: j in workers && j != i ==> workers[j] == old(workers)[j]
      ensures known ==> workers[i] == Worker(if old(workers)[i].status == Draining then Draining else Active, now,
                                             if revision.Some? then revision.value else old(workers)[i].revision)
    {
      known := i in workers;
      if known {
        var w := workers[i].(status := if workers[i].status.Draining? then Draining else Active, lastHeartbeatAt := now);
        workers := workers[i := if revision.Some? then w.(revision := revision.value) else w];
      }
    }

    method MarkStaleDead(now: int, seconds: int) returns (dead: nat)
      modifies this
      ensures workers.Keys == old(workers.Keys)
      ensures forall i :: i in workers ==>
                var w := old(workers)[i];
                workers[i] == if w.status != Dead && w.lastHeartbeatAt < now - seconds then w.(status := Dead) else w
      ensures dead == |set i | i in old(workers) && old(workers)[i].status != Dead && old(workers)[i].lastHeartbeatAt < now - seconds|
    {
      var stale := set i | i in workers && Stale(workers[i], now, seconds);
      assert stale == set i | i in workers && workers[i].status != Dead && workers[i].lastHeartbeatAt < now - seconds;
      dead := |stale|;
      workers := map i | i in workers :: if Stale(workers[i], now, seconds) then workers[i].(status := Dead) else workers[i];
    }

    method ListActive() returns (live: seq<InstanceId>)
      ensures Text.Ascending(live) && forall i :: i in live <==> i in workers && workers[i].status == Active
    {
      live := Text.Sort(set i | i in workers && workers[i].status.Active?);
    }
  }

  class Reconciler {
    const store: ContinuousStore.ContinuousStateStore
    const registry: WorkerRegistry
    const leaseSeconds: int
    const staleWorkerSeconds: int

    constructor (store: ContinuousStore.ContinuousStateStore, registry: WorkerRegistry, leaseSeconds: int,
                 staleWorkerSeconds: int)
      ensures this.store == store && this.registry == registry
      ensures this.leaseSeconds == leaseSeconds && this.staleWorkerSeconds == staleWorkerSeconds
    {
      this.store, this.registry := store, registry;
      this.leaseSeconds, this.staleWorkerSeconds := leaseSeconds, staleWorkerSeconds;
    }

    /** A live worker's load is the weight of the assigned and running rows it owns. */
    method LoadOf(xs: seq<Stored>, live: seq<InstanceId>) returns (load: LoadMap)
      ensures forall i :: i in load <==> i in live
      ensures forall i :: i in live ==> load[i] == SumOf(HeldIn(xs, i))
      ensures IsLoadMap(load, xs, live)
    {
      load := map i | i in live :: 0;
      for n := 0 to |xs|
        invariant forall i :: i in load <==> i in live
        invariant forall i :: i in live ==> load[i] == SnapshotLoad(xs[..n], i)
      {
        assert xs[..n + 1][..n] == xs[..n];
        var row := xs[n].row;
        if row.owner.Some? && row.owner.value in load && HeldStatus(row.status) {
          load := load[row.owner.value := load[row.owner.value] + row.weight];
        }
      }
      assert xs[..|xs|] == xs;
      forall i | i in live ensures load[i] == SumOf(HeldIn(xs, i)) {
        LoadIsWhatIsHeld(xs, i);
      }
    }

    /** The assignment loop: it updates the load map and the counters as it grants leases. */
    method AssignAll(now: int, d: DeploymentId, xs: seq<Stored>, live: seq<InstanceId>, initial: LoadMap)
      returns (newlyAssigned: nat, reclaimed: nat, load: LoadMap)
      requires live != []
      modifies store
      ensures Pass(store.At(now), load, newlyAssigned, reclaimed) ==
              VisitAll(Pass(old(store.At(now)), initial, 0, 0), d, xs, live, leaseSeconds)
    {
      newlyAssigned, reclaimed, load := 0, 0, initial;
      for n := 0 to |xs|
        invariant Pass(store.At(now), load, newlyAssigned, reclaimed) ==
                  VisitAll(Pass(old(store.At(now)), initial, 0, 0), d, xs[..n], live, leaseSeconds)
      {
        assert xs[..n + 1][..n] == xs[..n];
        var x := xs[n];
        if x.row.status.Inactive? || !NeedsAssign(x.row, now, live) {
          continue;
        }
        var owner := LeastLoadedOf(load, live);
        var lease := store.AcquireLease(now, Key(d, x.id), owner, leaseSeconds);
        if lease.Some? {
          load := load[owner := Load(load, owner) + x.row.weight];
          if x.row.owner.Some? {
            reclaimed := reclaimed + 1;
          } else {
            newlyAssigned := newlyAssigned + 1;
          }
        }
      }
      assert xs[..|xs|] == xs;
    }

    method CountInactive(xs: seq<Stored>) returns (deactivated: nat)
      ensures deactivated == CountOf(xs, Retired)
    {
      deactivated := 0;
      for n := 0 to |xs|
        invariant deactivated == CountOf(xs[..n], Retired)
      {
        assert xs[..n + 1][..n] == xs[..n];
        if xs[n].row.status.Inactive? {
          deactivated := deactivated + 1;
        }
      }
      assert xs[..|xs|] == xs;
    }

    /** The part of a pass that follows the sync: count, list the workers and hand out leases. */
    method Assign(now: int, d: DeploymentId, xs: seq<Stored>, active: bool, dead: nat)
      returns (result: ReconcileResult)
      requires FullSnapshot(store.At(now), d, xs) && RowInv(store.At(now))
      modifies store
      ensures result.deactivated == CountOf(xs, Retired) && result.deadWorkers == dead
      ensures active && AnyLive(registry.workers) ==>
                Reconciled(old(store.At(now)), store.At(now), d, xs, registry.workers, leaseSeconds, result)
      ensures !active || !AnyLive(registry.workers) ==>
                store.At(now) == old(store.At(now)) && result.newlyAssigned == 0 && result.reclaimed == 0
      ensures RowInv(store.At(now))
    {
      var deactivated := CountInactive(xs);
      var live := registry.ListActive();
      Text.AscendingIsDistinct(live);
      var newlyAssigned, reclaimed := 0, 0;
      if active && live != [] {
        assert Live(registry.workers, live[0]);
        ghost var synced := store.At(now);
        var load := LoadOf(xs, live);
        ghost var initial := load;
        newlyAssigned, reclaimed, load := AssignAll(now, d, xs, live, load);
        CountersAreExact(Pass(synced, initial, 0, 0), d, xs, live, leaseSeconds);
        assert PassOf(synced, store.At(now), d, xs, registry.workers, leaseSeconds, initial, live);
        PassReconciles(synced, store.At(now), d, xs, registry.workers, leaseSeconds,
                       ReconcileResult(newlyAssigned, reclaimed, deactivated, dead));
      }
      result := ReconcileResult(newlyAssigned, reclaimed, deactivated, dead);
    }

    /**
     One reconcile pass. For an active deployment with a live worker every row of the deployment ends assigned or
     running under a live owner's unexpired lease, except exactly those a dead owner still held unexpired; rows of
     other deployments do not move. Every row taken went to a live worker that carried the least when its turn came:
     what it held in the table, assigned or running, and what the pass had given it. From scratch the weights end
     spread out among the live workers. The result counts the workers found dead and, of the rows `xs` as discovery
     left them, the inactive ones, the free ones and those whose lease had run out.
     */
    method Reconcile(now: int, d: DeploymentId, deployment: Option<DeploymentStatus>, desired: seq<Partition>)
      returns (result: Result<ReconcileResult, ReconcileError>, ghost xs: seq<Stored>)
      requires RowInv(store.At(now)) && store as object != registry
      modifies store, registry
      ensures result.Failure? <==> deployment.None?
      ensures result.Failure? ==> store.At(now) == old(store.At(now)) && registry.workers == old(registry.workers)
      ensures RowInv(store.At(now))
      ensures result.Success? ==>
                var synced := Step(old(store.At(now)), Sync(d, desired));
                if deployment == Some(DeploymentActive) && AnyLive(registry.workers)
                then Reconciled(synced, store.At(now), d, xs, registry.workers, leaseSeconds, result.value)
                else store.At(now) == synced && result.value.newlyAssigned == 0 && result.value.reclaimed == 0
      ensures result.Success? ==>
                var synced, workers := Step(old(store.At(now)), Sync(d, desired)), old(registry.workers);
                && result.value.deactivated == |set k | k in synced.rows && k.deployment == d && synced.rows[k].status == PartitionStatus.Inactive|
                && result.value.deadWorkers ==
                   |set i | i in workers && workers[i].status != Dead && workers[i].lastHeartbeatAt < now - staleWorkerSeconds|
    {
      xs := [];
      if deployment.None? {
        return Failure(UnknownDeployment), xs;
      }
      var dead := registry.MarkStaleDead(now, staleWorkerSeconds);
      var rows := store.SyncPartitions(now, d, desired);
      xs := rows;
      CoherenceStep(old(store.At(now)), Sync(d, desired));
      RetiredAreCounted(store.rows, d, xs);
      var r := Assign(now, d, rows, deployment == Some(DeploymentActive), dead);
      result := Success(r);
    }
  }

  ghost predicate AnyLive(workers: map<InstanceId, Worker>) {
    exists i :: Live(workers, i)
  }

  /** The store after is what the assignment loop makes of the store before, from the true load map. */
  ghost predicate PassOf(before: Store, after: Store, d: DeploymentId, xs: seq<Stored>,
                         workers: map<InstanceId, Worker>, seconds: int, load: LoadMap, live: seq<InstanceId>) {
    && live != [] && Distinct(live) && (forall i :: i in live <==> Live(workers, i))
    && IsLoadMap(load, xs, live)
    && after == VisitAll(Pass(before, load, 0, 0), d, xs, live, seconds).store
  }

  ghost predicate Passed(before: Store, after: Store, d: DeploymentId, xs: seq<Stored>, workers: map<InstanceId, Worker>, seconds: int) {
    exists load, live :: PassOf(before, after, d, xs, workers, seconds, load, live)
  }

  function LiveWorkers(workers: map<InstanceId, Worker>): set<InstanceId> {
    set i | i in workers && workers[i].status == Active
  }

  /**
   From scratch no live worker ends up more than the heaviest weight, less its own share of it, above the average;
   and if all weights are one, no two are more than one partition apart.
   */
  ghost predicate SpreadOut(rows: map<Key, Row>, d: DeploymentId, xs: seq<Stored>, workers: map<InstanceId, Worker>) {
    && (forall j :: 0 <= j < |xs| ==> Key(d, xs[j].id) in rows)
    && (forall i :: Live(workers, i) ==>
        |LiveWorkers(workers)| * Owned(rows, d, xs, i) <= TotalDemand(xs) + (|LiveWorkers(workers)| - 1) * MaxDemand(xs))
    && ((forall j :: 0 <= j < |xs| ==> xs[j].row.weight == 1) ==>
        forall i, j :: Live(workers, i) && Live(workers, j) ==> Owned(rows, d, xs, i) - Owned(rows, d, xs, j) <= 1)
  }

  lemma {:induction false} DistinctCount(live: seq<InstanceId>, all: set<InstanceId>)
    requires Distinct(live) && forall i :: i in live <==> i in all
    ensures |live| == |all|
  {
    if live == [] {
      assert all == {};
    } else {
      var n := |live| - 1;
      forall i ensures i in live[..n] <==> i in all - {live[n]} {
        if i in live && i != live[n] {
          var j :| 0 <= j < |live| && live[j] == i;
          assert live[..n][j] == i;
        }
      }
      DistinctCount(live[..n], all - {live[n]});
    }
  }

  lemma PassIsNearAverage(before: Store, after: Store, d: DeploymentId, xs: seq<Stored>, workers: map<InstanceId, Worker>,
                          seconds: int, load: LoadMap, live: seq<InstanceId>, i: InstanceId)
    requires Snapshot(before, d, xs) && FromScratch(xs) && PassOf(before, after, d, xs, workers, seconds, load, live) && i in live
    ensures forall j :: 0 <= j < |xs| ==> Key(d, xs[j].id) in after.rows
    ensures |live| * Owned(after.rows, d, xs, i) <= TotalDemand(xs) + (|live| - 1) * MaxDemand(xs)
  {
    var p := Pass(before, load, 0, 0);
    DemandsAreSmall(xs);
    ScratchIsUnloaded(xs, live);
    GrahamAlongThePass(p, d, xs, live, seconds, MaxDemand(xs), i);
    LoadMapIsOwnership(p, d, xs, live, seconds, i);
    OwnsNoMore(|live|, Owned(after.rows, d, xs, i), Load(VisitAll(p, d, xs, live, seconds).load, i));
  }

  lemma OwnsNoMore(m: nat, owned: int, load: int)
    requires owned <= load
    ensures m * owned <= m * load
  {
  }

  lemma PassSpreadsOut(before: Store, after: Store, d: DeploymentId, xs: seq<Stored>, workers: map<InstanceId, Worker>, seconds: int)
    requires FullSnapshot(before, d, xs) && FromScratch(xs) && Passed(before, after, d, xs, workers, seconds)
    ensures SpreadOut(after.rows, d, xs, workers)
  {
    var load, live :| PassOf(before, after, d, xs, workers, seconds, load, live);
    DistinctCount(live, LiveWorkers(workers));
    PassIsNearAverage(before, after, d, xs, workers, seconds, load, live, live[0]);
    forall i | Live(workers, i)
      ensures |LiveWorkers(workers)| * Owned(after.rows, d, xs, i) <= TotalDemand(xs) + (|LiveWorkers(workers)| - 1) * MaxDemand(xs)
    {
      PassIsNearAverage(before, after, d, xs, workers, seconds, load, live, i);
    }
    if forall j :: 0 <= j < |xs| ==> xs[j].row.weight == 1 {
      forall i, j | Live(workers, i) && Live(workers, j) ensures Owned(after.rows, d, xs, i) - Owned(after.rows, d, xs, j) <= 1 {
        UnitWeightsSpreadEvenly(Pass(before, load, 0, 0), d, xs, live, seconds, i, j);
      }
    }
  }

  /**
   So a reconcile from scratch is near the best there is: with m live workers nobody ends up owning more than
   (2 - 1/m) times the heaviest worker of any other assignment of the same rows to live workers.
   */
  lemma {:induction false} ReconcileMeetsGraham(before: Store, after: Store, d: DeploymentId, xs: seq<Stored>, workers: map<InstanceId, Worker>,
                                                seconds: int, plan: PartitionId -> InstanceId, cap: int, i: InstanceId)
    requires FullSnapshot(before, d, xs) && FromScratch(xs) && Passed(before, after, d, xs, workers, seconds) && Live(workers, i)
    requires forall j :: 0 <= j < |xs| ==> Live(workers, plan(xs[j].id))
    requires forall w :: Live(workers, w) ==> Load(Burden(xs, plan), w) <= cap
    ensures forall j :: 0 <= j < |xs| ==> Key(d, xs[j].id) in after.rows
    ensures |LiveWorkers(workers)| * Owned(after.rows, d, xs, i) <= (2 * |LiveWorkers(workers)| - 1) * cap
  {
    var load, live :| PassOf(before, after, d, xs, workers, seconds, load, live);
    DistinctCount(live, LiveWorkers(workers));
    GrahamBound(Pass(before, load, 0, 0), d, xs, live, seconds, plan, cap, i);
  }

  /** What a reconcile of an active deployment with a live worker guarantees. */
  ghost predicate Reconciled(synced: Store, after: Store, d: DeploymentId, xs: seq<Stored>, workers: map<InstanceId, Worker>,
                             seconds: int, r: ReconcileResult) {
    && Converged(synced, after, d, workers, seconds)
    && FullSnapshot(synced, d, xs) && Passed(synced, after, d, xs, workers, seconds)
    && (forall n :: 0 <= n < |xs| && FreeOrLapsed(xs[n].row, synced.now) ==>
        WentToLeast(i => SumOf(HeldRows(synced.rows, d, i)), xs, after.rows, d, synced.now, n, LiveWorkers(workers)))
    && (FromScratch(xs) ==> SpreadOut(after.rows, d, xs, workers))
    && r.newlyAssigned == |set k | k in synced.rows && k.deployment == d && synced.rows[k].status == Unassigned|
    && r.reclaimed == |set k | k in synced.rows && k.deployment == d && FreeOrLapsed(synced.rows[k], synced.now) && synced.rows[k].status != Unassigned|
  }

  lemma PassReconciles(synced: Store, after: Store, d: DeploymentId, xs: seq<Stored>, workers: map<InstanceId, Worker>,
                       seconds: int, r: ReconcileResult)
    requires FullSnapshot(synced, d, xs) && RowInv(synced) && Passed(synced, after, d, xs, workers, seconds)
    requires r.newlyAssigned == CountOf(xs, Free) && r.reclaimed == CountOf(xs, Lapsed(synced.now))
    ensures Reconciled(synced, after, d, xs, workers, seconds, r) && RowInv(after)
  {
    ConvergedPass(synced, after, d, xs, workers, seconds);
    PassedIsGreedy(synced, after, d, xs, workers, seconds);
    CountIsOfTheTable(synced.rows, d, xs, Free);
    CountIsOfTheTable(synced.rows, d, xs, Lapsed(synced.now));
    KindsOfRows(synced.rows, d, synced.now);
    if FromScratch(xs) {
      PassSpreadsOut(synced, after, d, xs, workers, seconds);
    }
  }

  /** What a pass guarantees for the whole table. */
  ghost predicate Converged(before: Store, after: Store, d: DeploymentId, workers: map<InstanceId, Worker>,
                            seconds: int) {
    && after.rows.Keys == before.rows.Keys && after.box == before.box && after.now == before.now
    && (forall k :: k in before.rows && k.deployment != d ==> after.rows[k] == before.rows[k])
    && (forall k :: k in before.rows && k.deployment == d ==> ConvergedRow(before.rows[k], after.rows[k], before.now, workers, seconds))
  }

  /** A taken row is assigned to a live worker under the next token and a fresh lease; any other keeps what it has. */
  predicate ConvergedRow(row: Row, row': Row, now: int, workers: map<InstanceId, Worker>, seconds: int) {
    if FreeOrLapsed(row, now) then
      && row'.owner.Some? && row'.owner.value in workers && workers[row'.owner.value].status == Active
      && row' == Row(Assigned, row.weight, row.payload, row'.owner, row.token + 1, Some(now + seconds))
    else
      && row' == row
      && (row.status == Assigned || row.status == Running ==>
          row.owner.Some? && row.leaseExpiresAt.Some? && row.leaseExpiresAt.value >= now)
  }

  lemma KindsOfRows(rows: map<Key, Row>, d: DeploymentId, now: int)
    ensures RowsOf(rows, d, Free) == set k | k in rows && k.deployment == d && rows[k].status == Unassigned
    ensures RowsOf(rows, d, Lapsed(now)) == set k | k in rows && k.deployment == d && FreeOrLapsed(rows[k], now) && rows[k].status != Unassigned
    ensures RowsOf(rows, d, Retired) == set k | k in rows && k.deployment == d && rows[k].status == PartitionStatus.Inactive
  {
  }

  lemma RetiredAreCounted(rows: map<Key, Row>, d: DeploymentId, xs: seq<Stored>)
    requires ReadFrom(rows, d, xs)
    ensures CountOf(xs, Retired) == |set k | k in rows && k.deployment == d && rows[k].status == PartitionStatus.Inactive|
  {
    CountIsOfTheTable(rows, d, xs, Retired);
    KindsOfRows(rows, d, 0);
  }

  lemma PassedIsGreedy(before: Store, after: Store, d: DeploymentId, xs: seq<Stored>, workers: map<InstanceId, Worker>, seconds: int)
    requires FullSnapshot(before, d, xs) && Passed(before, after, d, xs, workers, seconds)
    ensures forall n :: 0 <= n < |xs| && FreeOrLapsed(xs[n].row, before.now) ==>
              WentToLeast(i => SumOf(HeldRows(before.rows, d, i)), xs, after.rows, d, before.now, n, LiveWorkers(workers))
  {
    var load, live :| PassOf(before, after, d, xs, workers, seconds, load, live);
    var p := Pass(before, load, 0, 0);
    assert (set i | i in live) == LiveWorkers(workers);
    forall i | i in live ensures Load(load, i) == SumOf(HeldRows(before.rows, d, i)) {
      LoadIsOfTheTable(before.rows, d, xs, i);
    }
    forall n | 0 <= n < |xs| && FreeOrLapsed(xs[n].row, before.now)
      ensures WentToLeast(i => SumOf(HeldRows(before.rows, d, i)), xs, after.rows, d, before.now, n, LiveWorkers(workers))
    {
      PassIsGreedy(p, d, xs, live, seconds, n);
      SameBase(i => Load(p.load, i), i => SumOf(HeldRows(before.rows, d, i)), xs, after.rows, d, before.now, n, LiveWorkers(workers));
    }
  }

  lemma ConvergedPass(before: Store, after: Store, d: DeploymentId, xs: seq<Stored>, workers: map<InstanceId, Worker>,
                      seconds: int)
    requires FullSnapshot(before, d, xs) && RowInv(before)
    requires Passed(before, after, d, xs, workers, seconds)
    ensures Converged(before, after, d, workers, seconds) && RowInv(after)
  {
    var load, live :| PassOf(before, after, d, xs, workers, seconds, load, live);
    var p := Pass(before, load, 0, 0);
    VisitAllRows(p, d, xs, live, seconds);
    forall k | k in before.rows && k.deployment == d
      ensures k in after.rows && ConvergedRow(before.rows[k], after.rows[k], before.now, workers, seconds)
      ensures Coherent(after.rows[k])
    {
      var i :| 0 <= i < |xs| && xs[i].id == k.partition;
      assert k == Key(d, xs[i].id);
      assert Visited(p, VisitAll(p, d, xs, live, seconds), d, xs[i], live, seconds);
    }
    forall k | k in before.rows && k.deployment != d ensures after.rows[k] == before.rows[k] {
      assert !Listed(d, xs, k);
    }
  }
}
