/**
 The objects of the continuous kit (testing/continuous.py), each method proved against the function of the same
 call: the lease manager, the recording sink and the kit with its loops over partitions, instances and deployments.
 Running for some time is a run of the kit's events.
 */
module ContinuousKitRuntime {
  import opened Wrappers
  import opened ContinuousTables
  import opened ContinuousKitTables
  import opened ContinuousKitHistory
  import opened ContinuousKitRuns
  import opened ContinuousKitBalance
  import opened Sums
  import Text

  class FakeClock {
    var now: int

    constructor ()
      ensures now == 0
    {
      now := 0;
    }

    /** A negative advance is an error. */
    method Advance(seconds: int) returns (ok: bool)
      modifies this
      ensures ok <==> seconds >= 0
      ensures now == old(now) + if ok then seconds else 0
    {
      ok := seconds >= 0;
      if ok {
        now := now + seconds;
      }
    }
  }

  /** The lease of this handle is still in the table. */
  predicate HandleFits(leases: map<Key, Entry>, h: LeaseHandle) {
    h.key in leases && leases[h.key].owner == h.owner && leases[h.key].token == h.token
  }

  class FakeLeaseManager {
    const clock: FakeClock
    const seconds: LeaseSeconds
    var token: nat
    var leases: map<Key, Entry>

    function Table(): LeaseTable
      reads this
    {
      LeaseTable(token, leases)
    }

    constructor (clock: FakeClock, seconds: LeaseSeconds)
      ensures this.clock == clock && this.seconds == seconds && Table() == LeaseTable(0, map[])
    {
      this.clock, this.seconds, token, leases := clock, seconds, 0, map[];
    }

    predicate IsCurrent(h: LeaseHandle)
      reads this, clock
    {
      Current(Table(), clock.now, h)
    }

    /** `None` is the violation raised for a partition that is already leased. */
    method Acquire(key: Key, owner: InstanceId) returns (lease: Option<LeaseHandle>)
      modifies this
      ensures lease.None? <==> Taken(old(Table()), clock.now, key)
      ensures lease.Some? ==> Table() == Grant(old(Table()), clock.now, key, owner, seconds)
      ensures lease == if key in old(leases) && clock.now < old(leases)[key].expiresAt then None
                       else Some(LeaseHandle(key, owner, old(token) + 1))
      ensures lease.None? ==> token == old(token) && leases == old(leases)
      ensures lease.Some? ==>
                token == old(token) + 1 && leases == old(leases)[key := Entry(owner, old(token) + 1, clock.now + seconds)]
    {
      if key in leases && !Expired(leases[key], clock.now) {
        return None;
      }
      token := token + 1;
      leases := leases[key := Entry(owner, token, clock.now + seconds)];
      lease := Some(LeaseHandle(key, owner, token));
    }

    method Renew(h: LeaseHandle) returns (renewed: bool)
      modifies this
      ensures renewed <==> Current(old(Table()), clock.now, h)
      ensures Table() == Extend(old(Table()), clock.now, h, seconds)
      ensures renewed <==> HandleFits(old(leases), h) && clock.now < old(leases)[h.key].expiresAt
      ensures leases == if renewed then old(leases)[h.key := Entry(h.owner, h.token, clock.now + seconds)] else old(leases)
      ensures token == old(token)
    {
      renewed := Authorized(Table(), h) && !Expired(leases[h.key], clock.now);
      if renewed {
        leases := leases[h.key := leases[h.key].(expiresAt := clock.now + seconds)];
      }
    }

    method Release(h: LeaseHandle) returns (released: bool)
      modifies this
      ensures released <==> Authorized(old(Table()), h)
      ensures Table() == Revoke(old(Table()), h)
      ensures released <==> HandleFits(old(leases), h)
      ensures leases == (if released then old(leases) - {h.key} else old(leases)) && token == old(token)
    {
      released := Authorized(Table(), h);
      if released {
        leases := leases - {h.key};
      }
    }

    method ForceExpire(key: Key)
      modifies this
      ensures Table() == ContinuousKitTables.ForceExpire(old(Table()), clock.now, key)
      ensures leases == (if key in old(leases) then old(leases)[key := Entry(old(leases)[key].owner, old(leases)[key].token, clock.now)]
                         else old(leases)) && token == old(token)
    {
      if key in leases {
        leases := leases[key := leases[key].(expiresAt := clock.now)];
      }
    }

    method OwnerOf(key: Key) returns (owner: Option<InstanceId>)
      ensures owner == if key in leases && clock.now < leases[key].expiresAt then Some(leases[key].owner) else None
    {
      owner := if key in leases && !Expired(leases[key], clock.now) then Some(leases[key].owner) else None;
    }
  }

  datatype EmitOutcome = Recorded | Duplicate | RejectedStale | DelegateRaised

  class RecordingSink {
    const leases: FakeLeaseManager
    var seen: set<EmissionId>
    var records: seq<Emission>

    function Value(): Sink
      reads this
    {
      Sink(seen, [], records)
    }

    constructor (leases: FakeLeaseManager)
      ensures this.leases == leases && Value() == Sink({}, [], [])
    {
      this.leases, seen, records := leases, {}, [];
    }

    /** One emission through a delegate that returns or raises before anything else happens. */
    method Emit(e: Emission, delegateRaises: bool) returns (outcome: EmitOutcome)
      modifies this
      ensures forall s: System :: s.kit.table == leases.Table() && s.kit.now == leases.clock.now && s.sink == old(Value()) ==>
                Value() == EmitOne(s, e, !delegateRaises).sink
      ensures outcome == if !HandleFits(leases.leases, e.lease) || leases.leases[e.lease.key].expiresAt <= leases.clock.now then RejectedStale
                         else if EmissionId(e.lease.key, e.stableId) in old(seen) then Duplicate
                         else if delegateRaises then DelegateRaised else Recorded
      ensures seen == old(seen) + if outcome in {DelegateRaised, Recorded} then {EmissionId(e.lease.key, e.stableId)} else {}
      ensures records == old(records) + if outcome.Recorded? then [e] else []
    {
      if !leases.IsCurrent(e.lease) {
        return RejectedStale;
      }
      if IdOf(e) in seen {
        return Duplicate;
      }
      seen := seen + {IdOf(e)};
      assert Without([] + [e], 0) == [];
      if delegateRaises {
        return DelegateRaised;
      }
      records := records + [e];
      outcome := Recorded;
    }
  }

  datatype KitError = UnknownDeployment | UnknownPartition | DuplicatePartition

  function DeploymentName(n: nat): DeploymentId {
    "deployment:local" + ['-'] + Text.Decimal(n)
  }

  lemma NamesAreDistinct(m: nat, n: nat)
    requires DeploymentName(m) == DeploymentName(n)
    ensures m == n
  {
    Text.SplitAtLastSeparator("deployment:local", "deployment:local", Text.Decimal(m), Text.Decimal(n), '-');
    Text.DecimalIsInjective(m, n);
  }

  /** The discovered partitions in id order, each id once. */
  ghost predicate Listing(discovered: seq<Partition>, xs: seq<Partition>) {
    && (forall i, j :: 0 <= i < j < |xs| ==> Text.Precedes(xs[i].id, xs[j].id))
    && (forall x :: x in xs <==> x in discovered)
  }

  /** Normalize a discovery: reject a repeated id, and sort by id. */
  method DiscoverPartitions(discovered: seq<Partition>) returns (result: Option<seq<Partition>>)
    ensures result.Some? <==> DistinctPartitions(discovered)
    ensures result.Some? ==> Listing(discovered, result.value)
  {
    var found: map<PartitionId, Partition> := map[];
    for i := 0 to |discovered|
      invariant DistinctPartitions(discovered[..i])
      invariant forall id :: id in found ==> found[id] in discovered[..i] && found[id].id == id
      invariant forall j :: 0 <= j < i ==> discovered[j].id in found && found[discovered[j].id] == discovered[j]
    {
      if discovered[i].id in found {
        assert !DistinctPartitions(discovered) by {
          var j :| 0 <= j < i && discovered[..i][j] == found[discovered[i].id];
          assert discovered[j].id == discovered[i].id;
        }
        return None;
      }
      found := found[discovered[i].id := discovered[i]];
    }
    assert discovered[..|discovered|] == discovered;
    var xs := InIdOrder(discovered, found);
    result := Some(xs);
  }

  method InIdOrder(ghost discovered: seq<Partition>, found: map<PartitionId, Partition>) returns (xs: seq<Partition>)
    requires forall id :: id in found ==> found[id] in discovered && found[id].id == id
    requires forall j :: 0 <= j < |discovered| ==> discovered[j].id in found && found[discovered[j].id] == discovered[j]
    ensures Listing(discovered, xs)
  {
    var ids := Text.Sort(found.Keys);
    xs := [];
    for i := 0 to |ids|
      invariant |xs| == i
      invariant forall j :: 0 <= j < i ==> ids[j] in found && xs[j] == found[ids[j]]
    {
      assert ids[i] in ids;
      xs := xs + [found[ids[i]]];
    }
    ListsAll(discovered, found, ids, xs);
  }

  lemma {:induction false} ListsAll(discovered: seq<Partition>, found: map<PartitionId, Partition>, ids: seq<PartitionId>,
                                    xs: seq<Partition>)
    requires forall j :: 0 <= j < |discovered| ==> discovered[j].id in found && found[discovered[j].id] == discovered[j]
    requires |xs| == |ids| && (forall i :: 0 <= i < |ids| ==> ids[i] in found && xs[i] == found[ids[i]])
    requires forall id :: id in found ==> id in ids
    ensures forall x :: x in discovered ==> x in xs
  {
    forall x | x in discovered ensures x in xs {
      var j :| 0 <= j < |discovered| && discovered[j] == x;
      assert x.id in ids;
      var i :| 0 <= i < |ids| && ids[i] == x.id;
      assert xs[i] == x;
    }
  }

  /** The context that stops when a partition is taken from its task. */
  function Told(p: KitPartition): set<nat> {
    if p.context.Some? then {p.context.value} else {}
  }

  /** The lease a partition gives up, if it is still the one in the table. */
  function Revocable(leases: map<Key, Entry>, p: KitPartition): set<Key> {
    if p.lease.Some? && HandleFits(leases, p.lease.value) then {p.lease.value.key} else {}
  }

  /** A grant: the next token to an instance that holds the least, a new context, and the displaced one told to stop. */
  ghost predicate AssignedAs(k: Kit, k': Kit, key: Key, seconds: LeaseSeconds) {
    && key in k'.partitions && k'.partitions[key].owner.Some?
    && HoldsLeast(k, key.deployment, k'.partitions[key].owner.value) && AssignedTo(k, k', key, k'.partitions[key].owner.value, seconds)
  }

  predicate AssignedTo(k: Kit, k': Kit, key: Key, owner: InstanceId, seconds: LeaseSeconds) {
    && key in k.partitions
    && var p, token := k.partitions[key], k.table.token + 1;
       && k'.partitions == k.partitions[key := KitPartition(p.partition, Assigned, Some(owner), Some(LeaseHandle(key, owner, token)),
                                                            Some(|k.contexts|), None)]
       && k'.table == LeaseTable(token, k.table.leases[key := Entry(owner, token, k.now + seconds)])
       && k'.contexts == k.contexts + [key] && k'.cancelled == k.cancelled + Told(p)
       && k'.now == k.now && k'.instances == k.instances && k'.deployments == k.deployments
  }

  lemma AssignWrites(k: Kit, key: Key, seconds: LeaseSeconds)
    requires KitInv(k) && key in k.partitions && key.deployment in k.deployments
    ensures var r := ContinuousKitTables.Assign(k, key, seconds);
            if key in k.table.leases && k.now < k.table.leases[key].expiresAt then r.None? else r.Some? && AssignedAs(k, r.value, key, seconds)
  {
    ChosenHoldsLeast(k, key.deployment);
    AssignWritesTo(k, key, seconds);
  }

  lemma AssignWritesTo(k: Kit, key: Key, seconds: LeaseSeconds)
    requires k.instances != [] && key in k.partitions && key.deployment in k.deployments
    ensures var r := ContinuousKitTables.Assign(k, key, seconds);
            if key in k.table.leases && k.now < k.table.leases[key].expiresAt then r.None?
            else r.Some? && AssignedTo(k, r.value, key, Chosen(k, key.deployment), seconds)
  {
  }

  class ContinuousRuntimeTestKit {
    const clock: FakeClock
    const leases: FakeLeaseManager
    var instances: seq<InstanceId>
    var deployments: map<DeploymentId, KitDeployment>
    var partitions: map<Key, KitPartition>
    var contexts: seq<Key>
    var cancelled: set<nat>
    var counter: nat

    function Value(): Kit
      reads this, leases, clock
    {
      Kit(clock.now, leases.Table(), instances, deployments, partitions, contexts, cancelled)
    }

    constructor (instance: InstanceId, seconds: LeaseSeconds)
      ensures fresh(clock) && fresh(leases) && leases.clock == clock && leases.seconds == seconds
      ensures Value() == Begin(instance, seconds).kit && Named()
    {
      var c := new FakeClock();
      var manager := new FakeLeaseManager(c, seconds);
      clock, leases := c, manager;
      instances, deployments, partitions, contexts, cancelled, counter := [instance], map[], map[], [], {}, 0;
    }

    /** Deployments carry the numbers given out so far. */
    ghost predicate Named()
      reads this
    {
      forall d :: d in deployments ==> exists n: nat :: n <= counter && d == DeploymentName(n)
    }

    method Deploy() returns (d: DeploymentId)
      requires Named()
      modifies this
      ensures Named() && d !in old(deployments) && Value() == ContinuousKitTables.Deploy(old(Value()), d)
      ensures deployments == old(deployments)[d := KitDeployment(true, [])]
      ensures unchanged(`instances, `partitions, `contexts, `cancelled)
    {
      counter := counter + 1;
      d := DeploymentName(counter);
      assert d !in deployments by {
        if d in deployments {
          var n: nat :| n <= counter - 1 && d == DeploymentName(n);
          NamesAreDistinct(n, counter);
        }
      }
      deployments := deployments[d := KitDeployment(true, [])];
    }

    method AddInstance(instance: InstanceId)
      modifies this
      ensures Value() == old(Value()).(instances := old(instances) + [instance])
    {
      instances := instances + [instance];
    }

    /** The weight every instance carries in the deployment. */
    method LoadOf(d: DeploymentId, order: seq<PartitionId>) returns (load: Scheduling.LoadMap)
      requires forall m, n :: 0 <= m < n < |order| ==> order[m] != order[n]
      ensures load == LoadMap(Value(), d, order)
      ensures load.Keys == (set i | i in instances) && forall i :: i in load ==> load[i] == SumOf(HeldAmong(Value(), d, order, i))
    {
      ghost var k := Value();
      load := map i | i in instances :: 0;
      for n := 0 to |order|
        invariant load == LoadMap(k, d, order[..n])
      {
        assert order[..n + 1][..n] == order[..n];
        var key := Key(d, order[n]);
        if key in partitions && HeldStatus(partitions[key].status) && partitions[key].owner.Some? && partitions[key].owner.value in load {
          var o := partitions[key].owner.value;
          load := load[o := load[o] + partitions[key].partition.weight];
        }
      }
      assert order[..|order|] == order;
      forall i | i in load ensures load[i] == SumOf(HeldAmong(Value(), d, order, i)) {
        LoadIsHeldAmong(Value(), d, order, i);
      }
    }

    /** An instance that holds the least weight of the deployment, the first by id among those. */
    method LeastLoadedInstance(d: DeploymentId) returns (owner: InstanceId)
      requires d in deployments && KitInv(Value())
      ensures owner == Chosen(Value(), d) && HoldsLeast(Value(), d, owner)
    {
      assert OrderOk(Value(), d);
      ChosenHoldsLeast(Value(), d);
      var load := LoadOf(d, deployments[d].order);
      owner := Scheduling.LeastLoadedOf(load, instances);
    }

    method CancelCurrent(key: Key)
      requires key in partitions
      modifies this`cancelled
      ensures Value() == CancelContext(old(Value()), partitions[key].context)
      ensures cancelled == old(cancelled) + Told(partitions[key])
    {
      if partitions[key].context.Some? {
        cancelled := cancelled + {partitions[key].context.value};
      }
    }

    /** The lease manager raises when the partition is leased; the invariant of the kit rules that out. */
    method AssignPartition(key: Key) returns (raised: bool)
      requires leases.clock == clock && KitInv(Value()) && key in partitions && key.deployment in deployments
      modifies this, leases
      ensures raised <==> ContinuousKitTables.Assign(old(Value()), key, leases.seconds).None?
      ensures !raised ==> Value() == ContinuousKitTables.Assign(old(Value()), key, leases.seconds).value
      ensures raised <==> key in old(leases.leases) && clock.now < old(leases.leases)[key].expiresAt
      ensures raised ==> Value() == old(Value()).(cancelled := old(cancelled) + Told(old(partitions)[key]))
      ensures !raised ==> AssignedAs(old(Value()), Value(), key, leases.seconds)
    {
      AssignWrites(Value(), key, leases.seconds);
      var owner := LeastLoadedInstance(key.deployment);
      CancelCurrent(key);
      var lease := leases.Acquire(key, owner);
      if lease.None? {
        return true;
      }
      partitions := partitions[key := partitions[key].(lease := lease, owner := Some(owner), context := Some(|contexts|),
                                                       task := None, status := Assigned)];
      contexts := contexts + [key];
      raised := false;
    }

    method ReleaseHeldLease(key: Key)
      requires key in partitions
      modifies leases
      ensures leases.Table() == ReleaseHeld(old(leases.Table()), partitions[key].lease)
      ensures leases.token == old(leases.token) && leases.leases == old(leases.leases) - Revocable(old(leases.leases), partitions[key])
    {
      if partitions[key].lease.Some? {
        var _ := leases.Release(partitions[key].lease.value);
      }
    }

    method FreePartition(key: Key, status: PartitionStatus)
      requires leases.clock == clock && key in partitions
      modifies this, leases
      ensures Value() == ContinuousKitTables.FreePartition(old(Value()), key, status)
      ensures partitions == old(partitions)[key := KitPartition(old(partitions)[key].partition, status, None, None,
                                                                old(partitions)[key].context, None)]
      ensures cancelled == old(cancelled) + Told(old(partitions)[key]) && unchanged(`instances, `deployments, `contexts)
      ensures leases.leases == old(leases.leases) - Revocable(old(leases.leases), old(partitions)[key]) && leases.token == old(leases.token)
    {
      CancelCurrent(key);
      ReleaseHeldLease(key);
      partitions := partitions[key := partitions[key].(task := None, lease := None, owner := None, status := status)];
    }

    method Harvest(key: Key, failed: bool)
      requires leases.clock == clock && key in partitions
      modifies this, leases
      ensures Value() == ContinuousKitTables.Harvest(old(Value()), key, failed)
      ensures var p := old(partitions)[key];
              partitions == old(partitions)[key := KitPartition(p.partition, if failed then PartitionStatus.Failed else Unassigned, None,
                                                                p.lease, p.context, None)]
      ensures unchanged(`instances, `deployments, `contexts, `cancelled)
      ensures leases.leases == old(leases.leases) - Revocable(old(leases.leases), old(partitions)[key]) && leases.token == old(leases.token)
    {
      ReleaseHeldLease(key);
      partitions := partitions[key := partitions[key].(task := None, owner := None, status := if failed then Failed else Unassigned)];
    }

    /** One turn of the tick loop. */
    method TickPartition(key: Key, tasks: nat -> TaskState)
      requires leases.clock == clock && key in partitions && key.deployment in deployments
      modifies this, leases
      ensures Value() == TickOne(old(Value()), key, tasks, leases.seconds)
    {
      var task := partitions[key].task;
      if task.Some? && tasks(task.value).Finished? {
        Harvest(key, tasks(task.value).failed);
      }
      assert Value() == HarvestIfDone(old(Value()), key, tasks);
      if !deployments[key.deployment].active {
        return;
      }
      var p := partitions[key];
      if p.status.Assigned? && p.task.None? {
        partitions := partitions[key := p.(task := p.context, status := Running)];
      } else if p.status.Running? && p.task.Some? && p.lease.Some? && leases.IsCurrent(p.lease.value) {
        var _ := leases.Renew(p.lease.value);
      }
      p := partitions[key];
      if p.status.Running? && (p.lease.None? || !leases.IsCurrent(p.lease.value)) {
        CancelCurrent(key);
        partitions := partitions[key := p.(status := Unassigned, owner := None, lease := None)];
      }
    }

    /** The loop of a tick over some partitions of a deployment. */
    method TickPartitions(d: DeploymentId, order: seq<PartitionId>, tasks: nat -> TaskState)
      requires leases.clock == clock && d in deployments && forall i :: 0 <= i < |order| ==> Key(d, order[i]) in partitions
      modifies this, leases
      ensures Value() == TickAll(old(Value()), d, order, tasks, leases.seconds)
    {
      ghost var k := Value();
      for n := 0 to |order|
        invariant forall i :: 0 <= i < n ==> Key(d, order[..n][i]) in k.partitions
        invariant Value() == TickAll(k, d, order[..n], tasks, leases.seconds)
      {
        assert order[..n + 1][..n] == order[..n] && Key(d, order[n]) in k.partitions;
        TickPartition(Key(d, order[n]), tasks);
      }
      assert order[..|order|] == order;
    }

    /** A tick visits every partition of the deployment once. */
    method TickDeployment(d: DeploymentId, tasks: nat -> TaskState)
      requires leases.clock == clock && d in deployments && KitInv(Value())
      modifies this, leases
      ensures KitInv(Value()) && GoodMove(old(Value()), Value(), d) && deployments == old(deployments)
      ensures clock.now == old(clock.now)
      ensures forall p :: p in old(deployments)[d].order ==>
                Key(d, p) in old(partitions) && TickedAt(old(Value()), Value(), Key(d, p), tasks, leases.seconds)
      ensures OrdersListed(old(Value())) && Value() == KitStep(old(Value()), TickOnce(d, tasks), leases.seconds)
    {
      ghost var k := Value();
      var order := deployments[d].order;
      assert OrderOk(k, d);
      TickPartitions(d, order, tasks);
      TickAllIsOk(k, d, order, tasks, leases.seconds);
      OrdersAreListed(k);
      TickEachMeans(k, d, order, tasks, leases.seconds);
    }

    /** Take the lease from every held partition that is no longer desired. */
    method ReleaseMissingPartitions(d: DeploymentId, desired: seq<Partition>)
      requires leases.clock == clock && d in deployments
      modifies this, leases
      ensures Value() == ReleaseMissing(old(Value()), d, old(deployments)[d].order, desired)
    {
      ghost var k := Value();
      var order := deployments[d].order;
      for n := 0 to |order|
        invariant Value() == ReleaseMissing(k, d, order[..n], desired)
      {
        assert order[..n + 1][..n] == order[..n];
        var key := Key(d, order[n]);
        if key in partitions && !Wanted(desired, key.partition) && HeldStatus(partitions[key].status) {
          FreePartition(key, Inactive);
        }
      }
      assert order[..|order|] == order;
    }

    /** Record one discovered partition and assign it unless it is settled. */
    method PlacePartition(d: DeploymentId, x: Partition) returns (raised: bool)
      requires leases.clock == clock && KitInv(Value()) && d in deployments
      modifies this, leases
      ensures raised <==> Place(old(Value()), d, x, leases.seconds).None?
      ensures !raised ==> Value() == Place(old(Value()), d, x, leases.seconds).value
    {
      var key := Key(d, x.id);
      if key in partitions {
        var p := partitions[key];
        partitions := partitions[key := p.(partition := x, status := if p.status.Inactive? then Unassigned else p.status)];
      } else {
        partitions := partitions[key := KitPartition(x, Unassigned, None, None, None, None)];
        deployments := deployments[d := deployments[d].(order := deployments[d].order + [x.id])];
      }
      assert Value() == Noted(old(Value()), d, x);
      NotedIsOk(old(Value()), d, x);
      var p := partitions[key];
      var valid := p.lease.Some? && leases.IsCurrent(p.lease.value);
      if (HeldStatus(p.status) && valid) || !deployments[d].active {
        return false;
      }
      raised := AssignPartition(key);
    }

    method PlacePartitions(d: DeploymentId, xs: seq<Partition>)
      requires leases.clock == clock && d in deployments && KitInv(Value())
      modifies this, leases
      ensures PlaceAll(old(Value()), d, xs, leases.seconds).Some?
      ensures Value() == PlaceAll(old(Value()), d, xs, leases.seconds).value
    {
      ghost var k := Value();
      for n := 0 to |xs|
        invariant d in deployments && KitInv(Value())
        invariant PlaceAll(k, d, xs[..n], leases.seconds) == Some(Value())
      {
        assert xs[..n + 1][..n] == xs[..n];
        PlaceIsOk(Value(), d, xs[n], leases.seconds);
        var raised := PlacePartition(d, xs[n]);
        assert !raised;
      }
      assert xs[..|xs|] == xs;
    }

    /**
     Discover, release what is gone, and place the rest. It fails only for an unknown deployment or a repeated id,
     never because of a lease.
     */
    method Reconcile(d: DeploymentId, discovered: seq<Partition>)
      returns (error: Option<KitError>, ghost xs: seq<Partition>)
      requires leases.clock == clock && KitInv(Value())
      modifies this, leases
      ensures error == if d !in old(deployments) then Some(UnknownDeployment)
                       else if !DistinctPartitions(discovered) then Some(DuplicatePartition) else None
      ensures error.Some? ==> Value() == old(Value())
      ensures KitInv(Value()) && GoodMove(old(Value()), Value(), d)
      ensures error.None? ==> Listing(discovered, xs) && Some(Value()) == ContinuousKitTables.Reconcile(old(Value()), d, xs, leases.seconds)
      ensures error.None? ==>
                forall p :: (forall x :: x in discovered ==> x.id != p) ==> GivenUp(old(Value()), Value(), Key(d, p))
      ensures error.None? && old(deployments)[d].active ==>
                && (forall x :: x in discovered ==> PlacedLive(old(Value()), Value(), d, x, leases.seconds))
                && (forall n :: 0 <= n < |xs| ==> PlacedLeast(old(Value()), Value(), d, xs, n))
      ensures error.None? && !old(deployments)[d].active ==>
                forall x :: x in discovered ==> RecordedOnly(old(Value()), Value(), d, x)
      ensures error.None? && old(deployments)[d].active && (forall key: Key :: key.deployment == d ==> Unheld(old(Value()), key)) ==>
                forall most: nat :: (forall x :: x in discovered ==> x.weight <= most) ==> SpreadWithin(Value(), d, most)
    {
      ghost var k := Value();
      xs := [];
      StayingIsGood(k, d);
      if d !in deployments {
        return Some(UnknownDeployment), xs;
      }
      var desired := DiscoverPartitions(discovered);
      if desired.None? {
        return Some(DuplicatePartition), xs;
      }
      xs := desired.value;
      ReleaseMissingFrame(k, d, k.deployments[d].order, xs);
      ReleaseMissingIsOk(k, d, k.deployments[d].order, xs);
      ReleaseMissingPartitions(d, desired.value);
      PlacePartitions(d, desired.value);
      ReconcileNeverRaises(k, d, xs, leases.seconds, "");
      OthersGiveUp(k, d, discovered, xs, leases.seconds);
      EveryoneIsPlaced(k, d, discovered, xs, leases.seconds);
      EveryoneGoesToTheLeast(k, d, discovered, xs, leases.seconds);
      error := None;
    }

    method ExpireLease(key: Key) returns (error: Option<KitError>)
      requires leases.clock == clock
      modifies this, leases
      ensures error == if key in old(partitions) then None else Some(UnknownPartition)
      ensures Value() == ContinuousKitTables.ExpireLease(old(Value()), key)
      ensures error.None? && key in old(leases.leases) ==>
                leases.leases == old(leases.leases)[key := old(leases.leases)[key].(expiresAt := clock.now)]
      ensures error.Some? || key !in old(leases.leases) ==> leases.leases == old(leases.leases)
      ensures cancelled == old(cancelled) + if key in old(partitions) then Told(old(partitions)[key]) else {}
      ensures leases.token == old(leases.token) && unchanged(`instances, `deployments, `partitions, `contexts)
    {
      if key !in partitions {
        return Some(UnknownPartition);
      }
      leases.ForceExpire(key);
      CancelCurrent(key);
      error := None;
    }

    /** Cancelling the deployment cancels every context it handed out. */
    method Drain(d: DeploymentId) returns (error: Option<KitError>)
      modifies this
      ensures error == if d in old(deployments) then None else Some(UnknownDeployment)
      ensures Value() == ContinuousKitTables.Drain(old(Value()), d)
      ensures error.Some? ==> Value() == old(Value())
      ensures error.None? ==>
                && deployments == old(deployments)[d := KitDeployment(false, old(deployments)[d].order)]
                && forall c: nat :: c in cancelled <==> c in old(cancelled) || (c < |contexts| && contexts[c].deployment == d)
      ensures unchanged(`instances, `partitions, `contexts)
    {
      if d !in deployments {
        return Some(UnknownDeployment);
      }
      deployments := deployments[d := deployments[d].(active := false)];
      cancelled := cancelled + set c | 0 <= c < |contexts| && contexts[c].deployment == d;
      error := None;
    }

    /** One tick of every deployment, each once. */
    method TickDeployments(tasks: nat -> TaskState) returns (ghost order: seq<DeploymentId>)
      requires leases.clock == clock && KitInv(Value())
      modifies this, leases
      ensures KitInv(Value()) && deployments == old(deployments) && clock.now == old(clock.now)
      ensures Plays(old(Value()), TicksOf(order, tasks), Value(), leases.seconds) && ListsOnce(order, deployments.Keys)
    {
      ghost var k := Value();
      var rest := deployments.Keys;
      order := [];
      while rest != {}
        invariant deployments == k.deployments && clock.now == k.now && rest <= deployments.Keys
        invariant Ticking(k, Value(), rest, order, tasks, leases.seconds)
        decreases rest
      {
        var d :| d in rest;
        ghost var mid := Value();
        TickDeployment(d, tasks);
        TickedOneMore(k, mid, Value(), rest, order, tasks, leases.seconds, d);
        rest := rest - {d};
        order := order + [d];
      }
      assert deployments.Keys - rest == deployments.Keys;
    }

    /**
     Advance the clock in ticks, the last one possibly shorter, and tick every deployment once after each advance:
     a run of the kit's events that ends the given time later.
     */
    method RunFor(seconds: int, tickSeconds: int, tasks: int -> nat -> TaskState)
      returns (ok: bool, ghost rounds: seq<Round>)
      requires leases.clock == clock && KitInv(Value())
      modifies this, leases, clock
      ensures ok <==> seconds >= 0 && tickSeconds > 0
      ensures clock.now == old(clock.now) + if ok then seconds else 0
      ensures KitInv(Value()) && deployments == old(deployments)
      ensures Forward(old(leases.Table()), old(clock.now), leases.Table(), clock.now)
      ensures Plays(old(Value()), EventsOf(rounds, old(clock.now), tasks), Value(), leases.seconds)
      ensures ok ==> TimeOf(rounds) == seconds && InRounds(rounds, tickSeconds, deployments.Keys)
      ensures !ok ==> rounds == []
    {
      ghost var k := Value();
      rounds := [];
      ForwardReflexively(k.table, k.now);
      if seconds < 0 || tickSeconds <= 0 {
        return false, [];
      }
      var remaining := seconds;
      while remaining > 0
        invariant deployments == k.deployments && KitInv(Value()) && clock.now == k.now + TimeOf(rounds)
        invariant Plays(k, EventsOf(rounds, k.now, tasks), Value(), leases.seconds)
        invariant TimeOf(rounds) == seconds - if remaining > 0 then remaining else 0
        invariant InRounds(rounds, tickSeconds, deployments.Keys) && (remaining > 0 ==> WholeSoFar(rounds, tickSeconds))
      {
        var step := if tickSeconds < remaining then tickSeconds else remaining;
        ghost var before := Value();
        TimeIsOk(before, step);
        var _ := clock.Advance(step);
        ghost var advanced := Value();
        ghost var ticked := TickDeployments(tasks(clock.now));
        OneMoreRound(k, before, advanced, Value(), leases.seconds, rounds, Round(step, ticked), tasks);
        InRoundsOneMore(rounds, tickSeconds, deployments.Keys, Round(step, ticked));
        rounds := rounds + [Round(step, ticked)];
        remaining := remaining - tickSeconds;
      }
      PlayingMovesForward(k, EventsOf(rounds, k.now, tasks), Value(), leases.seconds);
      ok := true;
    }
  }

  /** A kit whose tasks emit nothing. */
  function Alone(k: Kit, seconds: LeaseSeconds): System {
    System(k, Sink({}, [], []), [], seconds)
  }

  /** The events lead from one kit to the other. */
  ghost predicate Plays(k: Kit, es: seq<SystemEvent>, k': Kit, seconds: LeaseSeconds)
    requires KitInv(k)
  {
    ContinuousKitRuns.Run(Alone(k, seconds), es) == Alone(k', seconds)
  }

  lemma {:induction false} PlayingMovesForward(k: Kit, es: seq<SystemEvent>, k': Kit, seconds: LeaseSeconds)
    requires KitInv(k) && Plays(k, es, k', seconds)
    ensures Forward(k.table, k.now, k'.table, k'.now)
  {
    RunMovesForward(Alone(k, seconds), es);
  }

  ghost predicate ListsOnce(order: seq<DeploymentId>, ds: set<DeploymentId>) {
    && (forall d :: d in order <==> d in ds)
    && (forall i, j :: 0 <= i < j < |order| ==> order[i] != order[j])
  }

  lemma ListsOneMore(order: seq<DeploymentId>, ds: set<DeploymentId>, d: DeploymentId)
    requires ListsOnce(order, ds) && d !in ds
    ensures ListsOnce(order + [d], ds + {d})
  {
  }

  /** A round of ticks in progress: who is still to be ticked, and that the others were, each once. */
  ghost predicate Ticking(k: Kit, k': Kit, rest: set<DeploymentId>, order: seq<DeploymentId>, tasks: nat -> TaskState, seconds: LeaseSeconds) {
    KitInv(k) && KitInv(k') && ListsOnce(order, k.deployments.Keys - rest) && Plays(k, TicksOf(order, tasks), k', seconds)
  }

  lemma TickedOneMore(k: Kit, mid: Kit, after: Kit, rest: set<DeploymentId>, order: seq<DeploymentId>, tasks: nat -> TaskState,
                      seconds: LeaseSeconds, d: DeploymentId)
    requires Ticking(k, mid, rest, order, tasks, seconds) && d in rest && rest <= k.deployments.Keys
    requires KitInv(after) && OrdersListed(mid) && after == KitStep(mid, TickOnce(d, tasks), seconds)
    ensures Ticking(k, after, rest - {d}, order + [d], tasks, seconds)
  {
    PlaysOneMore(k, mid, after, seconds, order, tasks, d);
    ListsOneMore(order, k.deployments.Keys - rest, d);
    assert k.deployments.Keys - (rest - {d}) == k.deployments.Keys - rest + {d};
  }

  ghost function TicksOf(order: seq<DeploymentId>, tasks: nat -> TaskState): seq<SystemEvent> {
    if order == [] then [] else TicksOf(order[..|order| - 1], tasks) + [TickOnce(order[|order| - 1], tasks)]
  }

  lemma {:induction false} PlaysOneMore(k: Kit, mid: Kit, after: Kit, seconds: LeaseSeconds, order: seq<DeploymentId>,
                                        tasks: nat -> TaskState, d: DeploymentId)
    requires KitInv(k) && Plays(k, TicksOf(order, tasks), mid, seconds)
    requires OrdersListed(mid) && after == KitStep(mid, TickOnce(d, tasks), seconds)
    ensures Plays(k, TicksOf(order + [d], tasks), after, seconds)
  {
    assert (order + [d])[..|order|] == order;
    RunOneMore(Alone(k, seconds), TicksOf(order, tasks), TickOnce(d, tasks));
  }

  /** One advance of the clock and the ticks that follow it. */
  datatype Round = Round(step: nat, ticked: seq<DeploymentId>)

  ghost function EventsOf(rounds: seq<Round>, start: int, tasks: int -> nat -> TaskState): seq<SystemEvent> {
    if rounds == [] then []
    else
      var r := rounds[|rounds| - 1];
      EventsOf(rounds[..|rounds| - 1], start, tasks) + [Elapse(r.step)] + TicksOf(r.ticked, tasks(start + TimeOf(rounds)))
  }

  function TimeOf(rounds: seq<Round>): nat {
    if rounds == [] then 0 else TimeOf(rounds[..|rounds| - 1]) + rounds[|rounds| - 1].step
  }

  predicate WholeSoFar(rounds: seq<Round>, tick: int) {
    rounds == [] || rounds[|rounds| - 1].step == tick
  }

  /** Whole ticks but the last, each followed by one tick of every deployment. */
  ghost predicate InRounds(rounds: seq<Round>, tick: int, ds: set<DeploymentId>) {
    rounds == [] ||
    (var n := |rounds| - 1;
     && InRounds(rounds[..n], tick, ds) && WholeSoFar(rounds[..n], tick) && 0 < rounds[n].step <= tick
     && ListsOnce(rounds[n].ticked, ds))
  }

  lemma InRoundsOneMore(rounds: seq<Round>, tick: int, ds: set<DeploymentId>, r: Round)
    requires InRounds(rounds, tick, ds) && WholeSoFar(rounds, tick) && 0 < r.step <= tick && ListsOnce(r.ticked, ds)
    ensures InRounds(rounds + [r], tick, ds) && TimeOf(rounds + [r]) == TimeOf(rounds) + r.step
    ensures WholeSoFar(rounds + [r], tick) <==> r.step == tick
  {
    assert (rounds + [r])[..|rounds|] == rounds;
  }

  lemma {:induction false} OneMoreRound(k: Kit, before: Kit, advanced: Kit, after: Kit, seconds: LeaseSeconds,
                                        rounds: seq<Round>, r: Round, tasks: int -> nat -> TaskState)
    requires KitInv(k) && Plays(k, EventsOf(rounds, k.now, tasks), before, seconds) && before.now == k.now + TimeOf(rounds)
    requires KitInv(advanced) && advanced == before.(now := before.now + r.step)
    requires Plays(advanced, TicksOf(r.ticked, tasks(advanced.now)), after, seconds)
    ensures Plays(k, EventsOf(rounds + [r], k.now, tasks), after, seconds)
  {
    var earlier := EventsOf(rounds, k.now, tasks);
    var ticks := TicksOf(r.ticked, tasks(advanced.now));
    assert (rounds + [r])[..|rounds|] == rounds;
    assert EventsOf(rounds + [r], k.now, tasks) == earlier + [Elapse(r.step)] + ticks;
    RunOneMore(Alone(k, seconds), earlier, Elapse(r.step));
    RunAppends(Alone(k, seconds), earlier + [Elapse(r.step)], Alone(advanced, seconds), ticks);
  }

  /** Placed under a lease of its own, recorded as discovered, and its context has not been told to stop. */
  predicate PlacedLive(k: Kit, k': Kit, d: DeploymentId, x: Partition, seconds: LeaseSeconds) {
    var key := Key(d, x.id);
    && PlacedAt(k, k', key, seconds) && key in k'.partitions && k'.partitions[key].partition == x
    && k'.partitions[key].context.Some? && k'.partitions[key].context.value !in k'.cancelled
  }

  predicate RecordedOnly(k: Kit, k': Kit, d: DeploymentId, x: Partition) {
    NotedOnly(k, k', Key(d, x.id)) && Key(d, x.id) in k'.partitions && k'.partitions[Key(d, x.id)].partition == x
  }

  lemma ListedOnce(discovered: seq<Partition>, xs: seq<Partition>)
    requires Listing(discovered, xs)
    ensures DistinctPartitions(xs) && forall x :: x in discovered ==> x in xs
  {
    forall i, j | 0 <= i < j < |xs| ensures xs[i].id != xs[j].id {
      Text.PrecedesIsTotal(xs[i].id, xs[j].id);
    }
  }

  lemma OthersGiveUp(k: Kit, d: DeploymentId, discovered: seq<Partition>, xs: seq<Partition>, seconds: LeaseSeconds)
    requires KitInv(k) && d in k.deployments && Listing(discovered, xs)
    ensures ContinuousKitTables.Reconcile(k, d, xs, seconds).Some?
    ensures forall p :: (forall x :: x in discovered ==> x.id != p) ==>
              GivenUp(k, ContinuousKitTables.Reconcile(k, d, xs, seconds).value, Key(d, p))
  {
    ReconcileNeverRaises(k, d, xs, seconds, "");
    forall p | forall x :: x in discovered ==> x.id != p
      ensures GivenUp(k, ContinuousKitTables.Reconcile(k, d, xs, seconds).value, Key(d, p))
    {
      ReconcileNeverRaises(k, d, xs, seconds, p);
    }
  }

  lemma EveryoneIsPlaced(k: Kit, d: DeploymentId, discovered: seq<Partition>, xs: seq<Partition>, seconds: LeaseSeconds)
    requires KitInv(k) && d in k.deployments && Listing(discovered, xs)
    ensures ContinuousKitTables.Reconcile(k, d, xs, seconds).Some?
    ensures var k' := ContinuousKitTables.Reconcile(k, d, xs, seconds).value;
            forall x :: x in discovered ==>
              if k.deployments[d].active then PlacedLive(k, k', d, x, seconds) else RecordedOnly(k, k', d, x)
  {
    ReconcileNeverRaises(k, d, xs, seconds, "");
    ListedOnce(discovered, xs);
    var k' := ContinuousKitTables.Reconcile(k, d, xs, seconds).value;
    forall x | x in discovered ensures if k.deployments[d].active then PlacedLive(k, k', d, x, seconds) else RecordedOnly(k, k', d, x) {
      OneIsPlaced(k, d, xs, seconds, x);
    }
  }

  lemma OneIsPlaced(k: Kit, d: DeploymentId, xs: seq<Partition>, seconds: LeaseSeconds, x: Partition)
    requires KitInv(k) && d in k.deployments && DistinctPartitions(xs) && x in xs
    ensures ContinuousKitTables.Reconcile(k, d, xs, seconds).Some?
    ensures var k' := ContinuousKitTables.Reconcile(k, d, xs, seconds).value;
            if k.deployments[d].active then PlacedLive(k, k', d, x, seconds) else RecordedOnly(k, k', d, x)
  {
    var i :| 0 <= i < |xs| && xs[i] == x;
    assert Wanted(xs, x.id);
    ReconcileNeverRaises(k, d, xs, seconds, x.id);
    var released := ReleaseMissing(k, d, k.deployments[d].order, xs);
    ReleaseMissingFrame(k, d, k.deployments[d].order, xs);
    ReleaseMissingIsOk(k, d, k.deployments[d].order, xs);
    PlacedAsDiscovered(released, d, xs, seconds, i);
    PlaceAllIsOk(released, d, xs, seconds);
    if k.deployments[d].active {
      HoldersAreLive(PlaceAll(released, d, xs, seconds).value, Key(d, x.id));
    }
  }

  lemma EveryoneGoesToTheLeast(k: Kit, d: DeploymentId, discovered: seq<Partition>, xs: seq<Partition>, seconds: LeaseSeconds)
    requires KitInv(k) && d in k.deployments && Listing(discovered, xs)
    ensures ContinuousKitTables.Reconcile(k, d, xs, seconds).Some?
    ensures var k' := ContinuousKitTables.Reconcile(k, d, xs, seconds).value;
            k.deployments[d].active ==>
              && (forall n :: 0 <= n < |xs| ==> PlacedLeast(k, k', d, xs, n))
              && ((forall key: Key :: key.deployment == d ==> Unheld(k, key)) ==>
                  forall most: nat :: (forall x :: x in discovered ==> x.weight <= most) ==> SpreadWithin(k', d, most))
  {
    ReconcileNeverRaises(k, d, xs, seconds, "");
    ListedOnce(discovered, xs);
    if k.deployments[d].active {
      var k' := ContinuousKitTables.Reconcile(k, d, xs, seconds).value;
      forall n | 0 <= n < |xs| ensures PlacedLeast(k, k', d, xs, n) {
        ReconcileIsGreedy(k, d, xs, seconds, n);
      }
      if forall key: Key :: key.deployment == d ==> Unheld(k, key) {
        forall most: nat | forall x :: x in discovered ==> x.weight <= most ensures SpreadWithin(k', d, most) {
          ReconcileSpreadsEvenly(k, d, xs, seconds, most);
        }
      }
    }
  }
}
