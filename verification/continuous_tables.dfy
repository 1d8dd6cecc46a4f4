/**
 The continuous tables (state/continuous.py): partition rows that carry their lease, and one function per
 conditional UPDATE. An event is one such transaction or the passing of time, so a sequence of events is an
 interleaving of any number of reconcilers, supervisors, stale owners and operators.
 */
module ContinuousTables {
  import opened Wrappers
  import opened Outbox

  type DeploymentId = string
  type PartitionId = string
  type InstanceId = string

  datatype PartitionStatus = Unassigned | Assigned | Running | BlockedSink | Failed | Inactive

  datatype Key = Key(deployment: DeploymentId, partition: PartitionId)

  datatype Row = Row(
    status: PartitionStatus, weight: int, payload: string,
    owner: Option<InstanceId>, token: nat, leaseExpiresAt: Option<int>)

  datatype LeaseHandle = LeaseHandle(key: Key, owner: InstanceId, token: nat)

  /** A discovered partition; the Partition constructor rejects weights below one. */
  datatype PartitionData = Partition(id: PartitionId, payload: string, weight: int)

  type Partition = p: PartitionData | p.weight >= 1 witness Partition("p", "", 1)

  /** The tables at one instant of the database clock, and every lease handle ever returned. */
  datatype Store = Store(now: int, rows: map<Key, Row>, box: Box, issued: set<LeaseHandle>)

  const Init := Store(0, map[], EmptyBox, {})

  predicate Leasable(s: PartitionStatus) {
    s.Unassigned? || s.Assigned? || s.Running?
  }

  predicate HeldStatus(s: PartitionStatus) {
    s.Assigned? || s.Running?
  }

  /** A row as a query returns it. */
  datatype Stored = Stored(id: PartitionId, row: Row)

  predicate Listed(d: DeploymentId, xs: seq<Stored>, k: Key) {
    k.deployment == d && exists i :: 0 <= i < |xs| && xs[i].id == k.partition
  }

  /** The result of reading a deployment: each of its rows once, as the table has it, and none missing. */
  ghost predicate ReadFrom(rows: map<Key, Row>, d: DeploymentId, xs: seq<Stored>) {
    && (forall i, j :: 0 <= i < j < |xs| ==> xs[i].id != xs[j].id)
    && (forall i :: 0 <= i < |xs| ==> Key(d, xs[i].id) in rows && rows[Key(d, xs[i].id)] == xs[i].row)
    && (forall k :: k in rows && k.deployment == d ==> Listed(d, xs, k))
  }

  // ---- discovery ----

  function Upsert(rows: map<Key, Row>, d: DeploymentId, p: Partition): map<Key, Row> {
    var k := Key(d, p.id);
    rows[k := if k in rows
              then rows[k].(weight := p.weight, payload := p.payload,
                            status := if rows[k].status.Inactive? then Unassigned else rows[k].status)
              else Row(Unassigned, p.weight, p.payload, None, 0, None)]
  }

  function UpsertAll(rows: map<Key, Row>, d: DeploymentId, desired: seq<Partition>): map<Key, Row> {
    if desired == [] then rows else Upsert(UpsertAll(rows, d, desired[..|desired| - 1]), d, desired[|desired| - 1])
  }

  predicate Wanted(desired: seq<Partition>, id: PartitionId) {
    exists i :: 0 <= i < |desired| && desired[i].id == id
  }

  function Retire(r: Row): Row {
    r.(status := Inactive, owner := None, leaseExpiresAt := None)
  }

  /** Rows of the deployment that discovery no longer returns become inactive; an empty discovery retires nothing. */
  function RetireMissing(rows: map<Key, Row>, d: DeploymentId, desired: seq<Partition>): map<Key, Row> {
    if desired == [] then rows
    else map k | k in rows :: if k.deployment == d && !Wanted(desired, k.partition) && Leasable(rows[k].status)
                              then Retire(rows[k]) else rows[k]
  }

  function SyncPartitions(rows: map<Key, Row>, d: DeploymentId, desired: seq<Partition>): map<Key, Row> {
    RetireMissing(UpsertAll(rows, d, desired), d, desired)
  }

  // ---- leases ----

  predicate MayAcquire(r: Row, now: int, owner: InstanceId) {
    && Leasable(r.status)
    && (r.leaseExpiresAt.None? || r.leaseExpiresAt.value < now || r.owner == Some(owner))
  }

  function Granted(r: Row, now: int, owner: InstanceId, seconds: int): Row {
    r.(owner := Some(owner), token := r.token + 1, leaseExpiresAt := Some(now + seconds), status := Assigned)
  }

  function Released(r: Row): Row {
    r.(owner := None, leaseExpiresAt := None, status := Unassigned)
  }

  predicate Matches(rows: map<Key, Row>, h: LeaseHandle) {
    h.key in rows && rows[h.key].owner == Some(h.owner) && rows[h.key].token == h.token
  }

  predicate Unexpired(r: Row, now: int) {
    r.leaseExpiresAt.Some? && r.leaseExpiresAt.value > now
  }

  /** The fencing test of an emission: current owner, current token, unexpired lease. */
  predicate Accepts(s: Store, h: LeaseHandle) {
    Matches(s.rows, h) && Unexpired(s.rows[h.key], s.now)
  }

  function EmissionKey(k: Key, stableId: string): MessageKey {
    MessageKey("emission", k.deployment + [':'] + k.partition + [':'] + stableId)
  }

  function CheckpointKey(k: Key, checkpoint: string): MessageKey {
    MessageKey("checkpoint", k.deployment + [':'] + k.partition + [':'] + checkpoint)
  }

  datatype Event =
    | Advance(elapsed: nat)
    | Sync(deployment: DeploymentId, desired: seq<Partition>)
    | Acquire(key: Key, owner: InstanceId, seconds: int)
    | Renew(lease: LeaseHandle, seconds: int)
    | ReleaseLease(lease: LeaseHandle)
    | ReleasePartition(key: Key, expectedToken: int)
    | SetStatus(lease: LeaseHandle, status: PartitionStatus)
    | Emit(lease: LeaseHandle, destination: string, stableId: string, envelope: string)
    | Checkpoint(lease: LeaseHandle, destination: string, checkpoint: string, envelope: string)
    | MarkMessage(message: MessageKey, published: bool)

  function AcquireLease(s: Store, k: Key, owner: InstanceId, seconds: int): (Store, Option<LeaseHandle>) {
    if k in s.rows && MayAcquire(s.rows[k], s.now, owner) then
      var r := Granted(s.rows[k], s.now, owner, seconds);
      var h := LeaseHandle(k, owner, r.token);
      (s.(rows := s.rows[k := r], issued := s.issued + {h}), Some(h))
    else (s, None)
  }

  function SetRow(s: Store, k: Key, r: Row): Store {
    s.(rows := s.rows[k := r])
  }

  function Step(s: Store, e: Event): Store {
    match e
    case Advance(elapsed) => s.(now := s.now + elapsed)
    case Sync(d, desired) => s.(rows := SyncPartitions(s.rows, d, desired))
    case Acquire(k, owner, seconds) => AcquireLease(s, k, owner, seconds).0
    case Renew(h, seconds) =>
      if Accepts(s, h) then SetRow(s, h.key, s.rows[h.key].(leaseExpiresAt := Some(s.now + seconds))) else s
    case ReleaseLease(h) => if Matches(s.rows, h) then SetRow(s, h.key, Released(s.rows[h.key])) else s
    case ReleasePartition(k, expected) =>
      if k in s.rows && s.rows[k].token == expected then SetRow(s, k, Released(s.rows[k])) else s
    case SetStatus(h, status) =>
      if Matches(s.rows, h) then SetRow(s, h.key, s.rows[h.key].(status := status)) else s
    case Emit(h, destination, id, envelope) =>
      if Accepts(s, h) then s.(box := InsertRow(s.box, EmissionKey(h.key, id), destination, envelope, Some(h.token))) else s
    case Checkpoint(h, destination, id, envelope) =>
      if Matches(s.rows, h) then s.(box := InsertRow(s.box, CheckpointKey(h.key, id), destination, envelope, Some(h.token))) else s
    case MarkMessage(k, published) => s.(box := if published then MarkPublished(s.box, k) else MarkFailed(s.box, k))
  }

  function Run(s: Store, es: seq<Event>): Store {
    if es == [] then s else Step(Run(s, es[..|es| - 1]), es[|es| - 1])
  }
}
