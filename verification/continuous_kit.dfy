/**
 The deterministic test kit for continuous workloads (testing/continuous.py) over values: the lease table, the
 partitions of every deployment, the contexts handed to their tasks, and one recording sink.
 */
module ContinuousKitTables {
  import opened Wrappers
  import opened ContinuousTables
  import Scheduling

  // ---- leases ----

  datatype Entry = Entry(owner: InstanceId, token: nat, expiresAt: int)

  datatype LeaseTable = LeaseTable(token: nat, leases: map<Key, Entry>)

  predicate Expired(e: Entry, now: int) {
    now >= e.expiresAt
  }

  predicate Authorized(t: LeaseTable, h: LeaseHandle) {
    h.key in t.leases && t.leases[h.key].owner == h.owner && t.leases[h.key].token == h.token
  }

  predicate Current(t: LeaseTable, now: int, h: LeaseHandle) {
    Authorized(t, h) && !Expired(t.leases[h.key], now)
  }

  predicate Taken(t: LeaseTable, now: int, k: Key) {
    k in t.leases && !Expired(t.leases[k], now)
  }

  /** One token counter serves every partition. */
  function Grant(t: LeaseTable, now: int, k: Key, owner: InstanceId, seconds: LeaseSeconds): LeaseTable {
    LeaseTable(t.token + 1, t.leases[k := Entry(owner, t.token + 1, now + seconds)])
  }

  function Extend(t: LeaseTable, now: int, h: LeaseHandle, seconds: LeaseSeconds): LeaseTable {
    if Current(t, now, h) then t.(leases := t.leases[h.key := t.leases[h.key].(expiresAt := now + seconds)]) else t
  }

  function Revoke(t: LeaseTable, h: LeaseHandle): LeaseTable {
    if Authorized(t, h) then t.(leases := t.leases - {h.key}) else t
  }

  function ForceExpire(t: LeaseTable, now: int, k: Key): LeaseTable {
    if k in t.leases then t.(leases := t.leases[k := t.leases[k].(expiresAt := now)]) else t
  }

  // ---- partitions ----

  /** The lease time of a policy, which is positive. */
  type LeaseSeconds = s: int | s > 0 witness 60

  /** `context` is the cancellation scope of the current assignment; a started task is named by its context. */
  datatype KitPartition = KitPartition(
    partition: Partition, status: PartitionStatus, owner: Option<InstanceId>, lease: Option<LeaseHandle>,
    context: Option<nat>, task: Option<nat>)

  datatype KitDeployment = KitDeployment(active: bool, order: seq<PartitionId>)

  /** How a task stands when the kit looks at it. */
  datatype TaskState = Unfinished | Finished(failed: bool)

  datatype Kit = Kit(
    now: int, table: LeaseTable, instances: seq<InstanceId>, deployments: map<DeploymentId, KitDeployment>,
    partitions: map<Key, KitPartition>, contexts: seq<Key>, cancelled: set<nat>)

  function CancelContext(k: Kit, context: Option<nat>): Kit {
    if context.Some? then k.(cancelled := k.cancelled + {context.value}) else k
  }

  function Put(k: Kit, key: Key, p: KitPartition): Kit {
    k.(partitions := k.partitions[key := p])
  }

  /** The weight an instance carries in a deployment. */
  function LoadOn(k: Kit, d: DeploymentId, order: seq<PartitionId>, i: InstanceId): int {
    if order == [] then 0
    else
      var key := Key(d, order[|order| - 1]);
      LoadOn(k, d, order[..|order| - 1], i) +
      if key in k.partitions && HeldStatus(k.partitions[key].status) && k.partitions[key].owner == Some(i)
      then k.partitions[key].partition.weight else 0
  }

  function LoadMap(k: Kit, d: DeploymentId, order: seq<PartitionId>): Scheduling.LoadMap {
    map i | i in k.instances :: LoadOn(k, d, order, i)
  }

  function Chosen(k: Kit, d: DeploymentId): InstanceId
    requires k.instances != [] && d in k.deployments
  {
    Scheduling.LeastLoaded(LoadMap(k, d, k.deployments[d].order), k.instances)
  }

  /** `None` is the violation the lease manager raises for a partition that is already leased. */
  function Assign(k: Kit, key: Key, seconds: LeaseSeconds): Option<Kit>
    requires k.instances != [] && key.deployment in k.deployments && key in k.partitions
  {
    if Taken(k.table, k.now, key) then None
    else
      var owner := Chosen(k, key.deployment);
      var p := k.partitions[key];
      var table := Grant(k.table, k.now, key, owner, seconds);
      var granted := p.(lease := Some(LeaseHandle(key, owner, table.token)), owner := Some(owner),
                         context := Some(|k.contexts|), task := None, status := Assigned);
      Some(Put(CancelContext(k, p.context), key, granted).(table := table, contexts := k.contexts + [key]))
  }

  function ReleaseHeld(t: LeaseTable, lease: Option<LeaseHandle>): LeaseTable {
    if lease.Some? then Revoke(t, lease.value) else t
  }

  function FreePartition(k: Kit, key: Key, status: PartitionStatus): Kit
    requires key in k.partitions
  {
    var p := k.partitions[key];
    Put(CancelContext(k, p.context), key, p.(task := None, lease := None, owner := None, status := status))
      .(table := ReleaseHeld(k.table, p.lease))
  }

  /** The handle of a finished task is released in the manager and stays on the partition. */
  function Harvest(k: Kit, key: Key, failed: bool): Kit
    requires key in k.partitions
  {
    var p := k.partitions[key];
    Put(k, key, p.(task := None, owner := None, status := if failed then Failed else Unassigned))
      .(table := ReleaseHeld(k.table, p.lease))
  }

  function HarvestIfDone(k: Kit, key: Key, tasks: nat -> TaskState): Kit
    requires key in k.partitions
  {
    var p := k.partitions[key];
    if p.task.Some? && tasks(p.task.value).Finished? then Harvest(k, key, tasks(p.task.value).failed) else k
  }

  function StartOrRenew(k: Kit, key: Key, seconds: LeaseSeconds): Kit
    requires key in k.partitions
  {
    var p := k.partitions[key];
    if p.status.Assigned? && p.task.None? then Put(k, key, p.(task := p.context, status := Running))
    else if p.status.Running? && p.task.Some? && p.lease.Some? then k.(table := Extend(k.table, k.now, p.lease.value, seconds))
    else k
  }

  function DropLost(k: Kit, key: Key): Kit
    requires key in k.partitions
  {
    var p := k.partitions[key];
    if p.status.Running? && (p.lease.None? || !Current(k.table, k.now, p.lease.value))
    then Put(CancelContext(k, p.context), key, p.(status := Unassigned, owner := None, lease := None)) else k
  }

  /** One partition in a tick. */
  function TickOne(k: Kit, key: Key, tasks: nat -> TaskState, seconds: LeaseSeconds): Kit
    requires key in k.partitions && key.deployment in k.deployments
  {
    var harvested := HarvestIfDone(k, key, tasks);
    if !k.deployments[key.deployment].active then harvested else DropLost(StartOrRenew(harvested, key, seconds), key)
  }

  // ---- reconcile ----

  function ReleaseIfMissing(k: Kit, key: Key, desired: seq<Partition>): Kit {
    if key in k.partitions && !Wanted(desired, key.partition) && HeldStatus(k.partitions[key].status)
    then FreePartition(k, key, Inactive) else k
  }

  function ReleaseMissing(k: Kit, d: DeploymentId, order: seq<PartitionId>, desired: seq<Partition>): Kit {
    if order == [] then k
    else ReleaseIfMissing(ReleaseMissing(k, d, order[..|order| - 1], desired), Key(d, order[|order| - 1]), desired)
  }

  /** Record a discovered partition; an inactive one may be assigned again. */
  function Noted(k: Kit, d: DeploymentId, x: Partition): Kit
    requires d in k.deployments
  {
    var key := Key(d, x.id);
    if key in k.partitions then
      var p := k.partitions[key];
      Put(k, key, p.(partition := x, status := if p.status.Inactive? then Unassigned else p.status))
    else
      Put(k, key, KitPartition(x, Unassigned, None, None, None, None))
        .(deployments := k.deployments[d := k.deployments[d].(order := k.deployments[d].order + [x.id])])
  }

  predicate Settled(k: Kit, key: Key) {
    && key in k.partitions && HeldStatus(k.partitions[key].status)
    && k.partitions[key].lease.Some? && Current(k.table, k.now, k.partitions[key].lease.value)
  }

  function Place(k: Kit, d: DeploymentId, x: Partition, seconds: LeaseSeconds): Option<Kit>
    requires k.instances != [] && d in k.deployments
  {
    var noted := Noted(k, d, x);
    if Settled(noted, Key(d, x.id)) || !noted.deployments[d].active then Some(noted)
    else Assign(noted, Key(d, x.id), seconds)
  }

  function PlaceAll(k: Kit, d: DeploymentId, xs: seq<Partition>, seconds: LeaseSeconds): (r: Option<Kit>)
    requires k.instances != [] && d in k.deployments
    ensures r.Some? ==> r.value.instances == k.instances && d in r.value.deployments
  {
    if xs == [] then Some(k)
    else
      var earlier := PlaceAll(k, d, xs[..|xs| - 1], seconds);
      if earlier.None? then None else Place(earlier.value, d, xs[|xs| - 1], seconds)
  }

  lemma {:induction false} ReleaseMissingFrame(k: Kit, d: DeploymentId, order: seq<PartitionId>,
                                               desired: seq<Partition>)
    ensures var r := ReleaseMissing(k, d, order, desired);
            && r.now == k.now && r.instances == k.instances && r.deployments == k.deployments && r.contexts == k.contexts
            && r.partitions.Keys == k.partitions.Keys && r.table.token == k.table.token
  {
    if order != [] {
      ReleaseMissingFrame(k, d, order[..|order| - 1], desired);
    }
  }

  function Reconcile(k: Kit, d: DeploymentId, desired: seq<Partition>, seconds: LeaseSeconds): Option<Kit>
    requires k.instances != [] && d in k.deployments
  {
    var released := ReleaseMissing(k, d, k.deployments[d].order, desired);
    ReleaseMissingFrame(k, d, k.deployments[d].order, desired);
    PlaceAll(released, d, desired, seconds)
  }

  // ---- other calls ----

  /** The partitions of a deployment, one after the other. */
  function TickAll(k: Kit, d: DeploymentId, order: seq<PartitionId>, tasks: nat -> TaskState, seconds: LeaseSeconds): (r: Kit)
    requires d in k.deployments && forall i :: 0 <= i < |order| ==> Key(d, order[i]) in k.partitions
    ensures r.deployments == k.deployments && r.partitions.Keys == k.partitions.Keys && r.now == k.now
    ensures r.instances == k.instances
  {
    if order == [] then k
    else TickOne(TickAll(k, d, order[..|order| - 1], tasks, seconds), Key(d, order[|order| - 1]), tasks, seconds)
  }

  function ExpireLease(k: Kit, key: Key): Kit {
    if key !in k.partitions then k
    else CancelContext(k.(table := ForceExpire(k.table, k.now, key)), k.partitions[key].context)
  }

  function Drain(k: Kit, d: DeploymentId): Kit {
    if d !in k.deployments then k
    else k.(deployments := k.deployments[d := k.deployments[d].(active := false)],
            cancelled := k.cancelled + set c | 0 <= c < |k.contexts| && k.contexts[c].deployment == d)
  }

  function Deploy(k: Kit, d: DeploymentId): Kit {
    if d in k.deployments then k else k.(deployments := k.deployments[d := KitDeployment(true, [])])
  }
}
