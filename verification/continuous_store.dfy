/**
 The continuous repository object (state/continuous.py). Each method is one transaction at a given reading of
 the database clock, tied to the event of the same name.
 */
module ContinuousStore {
  import opened Wrappers
  import opened Outbox
  import opened ContinuousTables
  import opened Leases
  import Text

  class ContinuousStateStore {
    var rows: map<Key, Row>
    var box: Box
    ghost var issued: set<LeaseHandle>

    ghost function At(now: int): Store
      reads this
    {
      Store(now, rows, box, issued)
    }

    constructor ()
      ensures At(0) == Init
    {
      rows, box, issued := map[], EmptyBox, {};
    }

    /** SELECT ... WHERE deployment_id = d ORDER BY partition_id. */
    method Partitions(d: DeploymentId) returns (xs: seq<Stored>)
      ensures ReadFrom(rows, d, xs)
      ensures forall i, j :: 0 <= i < j < |xs| ==> Text.Precedes(xs[i].id, xs[j].id)
    {
      var ids := Text.Sort(set k | k in rows && k.deployment == d :: k.partition);
      Text.AscendingIsDistinct(ids);
      xs := [];
      for i := 0 to |ids|
        invariant |xs| == i
        invariant forall j :: 0 <= j < i ==> xs[j].id == ids[j] && Key(d, ids[j]) in rows && xs[j].row == rows[Key(d, ids[j])]
      {
        assert ids[i] in ids;
        var k :| k in rows && k.deployment == d && k.partition == ids[i];
        assert k == Key(d, ids[i]);
        xs := xs + [Stored(ids[i], rows[k])];
      }
      forall k | k in rows && k.deployment == d ensures Listed(d, xs, k) {
        assert k.partition in ids;
        var i :| 0 <= i < |ids| && ids[i] == k.partition;
        assert xs[i].id == k.partition;
      }
    }

    /** Upsert what was discovered, retire what is gone, and return the rows of the deployment. */
    method SyncPartitions(now: int, d: DeploymentId, desired: seq<Partition>) returns (xs: seq<Stored>)
      modifies this
      ensures At(now) == Step(old(At(now)), Sync(d, desired))
      ensures box == old(box) && forall k :: Synced(old(rows), rows, d, desired, k)
      ensures ReadFrom(rows, d, xs)
      ensures forall i, j :: 0 <= i < j < |xs| ==> Text.Precedes(xs[i].id, xs[j].id)
    {
      for i := 0 to |desired|
        invariant rows == UpsertAll(old(rows), d, desired[..i]) && box == old(box) && issued == old(issued)
      {
        var k := Key(d, desired[i].id);
        if k in rows {
          rows := rows[k := rows[k].(weight := desired[i].weight, payload := desired[i].payload,
                                     status := if rows[k].status.Inactive? then Unassigned else rows[k].status)];
        } else {
          rows := rows[k := Row(Unassigned, desired[i].weight, desired[i].payload, None, 0, None)];
        }
        assert desired[..i + 1][..i] == desired[..i];
      }
      assert desired[..|desired|] == desired;
      if desired != [] {
        rows := map k | k in rows :: if k.deployment == d && !Wanted(desired, k.partition) && Leasable(rows[k].status)
                                     then Retire(rows[k]) else rows[k];
      }
      forall k ensures Synced(old(rows), rows, d, desired, k) {
        SyncRow(old(rows), d, desired, k);
      }
      xs := Partitions(d);
    }

    method AcquireLease(now: int, k: Key, owner: InstanceId, seconds: int) returns (lease: Option<LeaseHandle>)
      modifies this
      ensures At(now) == Step(old(At(now)), Acquire(k, owner, seconds))
      ensures lease.Some? <==>
                && k in old(rows) && old(rows)[k].status in {Unassigned, Assigned, Running}
                && var expiry := old(rows)[k].leaseExpiresAt;
                   (expiry.None? || expiry.value < now || old(rows)[k].owner == Some(owner))
      ensures lease.None? ==> At(now) == old(At(now))
      ensures lease.Some? ==>
                && box == old(box)
                && var r := old(rows)[k];
                   rows == old(rows)[k := Row(Assigned, r.weight, r.payload, Some(owner), r.token + 1, Some(now + seconds))]
      ensures lease.Some? ==> lease.value == LeaseHandle(k, owner, old(rows)[k].token + 1) && lease.value in issued && Matches(rows, lease.value)
    {
      if k !in rows || !MayAcquire(rows[k], now, owner) {
        return None;
      }
      rows := rows[k := Granted(rows[k], now, owner, seconds)];
      lease := Some(LeaseHandle(k, owner, rows[k].token));
      issued := issued + {lease.value};
    }

    method RenewLease(now: int, h: LeaseHandle, seconds: int) returns (renewed: bool)
      modifies this
      ensures At(now) == Step(old(At(now)), Renew(h, seconds))
      ensures renewed <==>
                && h.key in old(rows) && old(rows)[h.key].owner == Some(h.owner) && old(rows)[h.key].token == h.token
                && old(rows)[h.key].leaseExpiresAt.Some? && old(rows)[h.key].leaseExpiresAt.value > now
      ensures box == old(box)
      ensures rows == if renewed then old(rows)[h.key := old(rows)[h.key].(leaseExpiresAt := Some(now + seconds))] else old(rows)
    {
      renewed := Matches(rows, h) && Unexpired(rows[h.key], now);
      if renewed {
        rows := rows[h.key := rows[h.key].(leaseExpiresAt := Some(now + seconds))];
      }
    }

    method ReleaseLease(now: int, h: LeaseHandle) returns (released: bool)
      modifies this
      ensures At(now) == Step(old(At(now)), Event.ReleaseLease(h))
      ensures released <==> h.key in old(rows) && old(rows)[h.key].owner == Some(h.owner) && old(rows)[h.key].token == h.token
      ensures box == old(box) && !Matches(rows, h)
      ensures rows == if released
                      then old(rows)[h.key := old(rows)[h.key].(owner := None, leaseExpiresAt := None, status := Unassigned)]
                      else old(rows)
    {
      released := Matches(rows, h);
      if released {
        rows := rows[h.key := Released(rows[h.key])];
      }
    }

    method ReleasePartition(now: int, k: Key, expectedToken: int) returns (released: bool)
      modifies this
      ensures At(now) == Step(old(At(now)), Event.ReleasePartition(k, expectedToken))
      ensures released <==> k in old(rows) && old(rows)[k].token == expectedToken
      ensures box == old(box)
      ensures rows == if released
                      then old(rows)[k := old(rows)[k].(owner := None, leaseExpiresAt := None, status := Unassigned)]
                      else old(rows)
    {
      released := k in rows && rows[k].token == expectedToken;
      if released {
        rows := rows[k := Released(rows[k])];
      }
    }

    method SetPartitionStatus(now: int, h: LeaseHandle, status: PartitionStatus) returns (changed: bool)
      modifies this
      ensures At(now) == Step(old(At(now)), SetStatus(h, status))
      ensures changed <==> h.key in old(rows) && old(rows)[h.key].owner == Some(h.owner) && old(rows)[h.key].token == h.token
      ensures box == old(box)
      ensures rows == if changed then old(rows)[h.key := old(rows)[h.key].(status := status)] else old(rows)
    {
      changed := Matches(rows, h);
      if changed {
        rows := rows[h.key := rows[h.key].(status := status)];
      }
    }

    /**
     `None` is the rejection; a rejected emission rolls back and writes nothing. An accepted one is pending in the outbox
     under the lease's token, and a replay of its id changes nothing of it but raises the token.
     */
    method Emit(now: int, h: LeaseHandle, destination: string, stableId: string, envelope: string)
      returns (id: Option<nat>)
      modifies this
      ensures At(now) == Step(old(At(now)), Event.Emit(h, destination, stableId, envelope))
      ensures id.Some? <==>
                && h.key in old(rows) && old(rows)[h.key].owner == Some(h.owner) && old(rows)[h.key].token == h.token
                && old(rows)[h.key].leaseExpiresAt.Some? && old(rows)[h.key].leaseExpiresAt.value > now
      ensures id.Some? ==>
                var m := MessageKey("emission", h.key.deployment + ":" + h.key.partition + ":" + stableId);
                rows == old(rows) && Taken(old(box), box, m, id.value, destination, envelope, h.token)
      ensures id.None? ==> At(now) == old(At(now))
    {
      if !Matches(rows, h) || !Unexpired(rows[h.key], now) {
        return None;
      }
      box := InsertRow(box, EmissionKey(h.key, stableId), destination, envelope, Some(h.token));
      id := Some(box.rows[EmissionKey(h.key, stableId)].id);
    }

    /** Checkpoints test owner and token but not the expiry. */
    method RecordCheckpoint(now: int, h: LeaseHandle, destination: string, checkpoint: string, envelope: string)
      returns (id: Option<nat>)
      modifies this
      ensures At(now) == Step(old(At(now)), Checkpoint(h, destination, checkpoint, envelope))
      ensures id.Some? <==> h.key in old(rows) && old(rows)[h.key].owner == Some(h.owner) && old(rows)[h.key].token == h.token
      ensures id.Some? ==>
                var m := MessageKey("checkpoint", h.key.deployment + ":" + h.key.partition + ":" + checkpoint);
                rows == old(rows) && Taken(old(box), box, m, id.value, destination, envelope, h.token)
      ensures id.None? ==> At(now) == old(At(now))
    {
      if !Matches(rows, h) {
        return None;
      }
      box := InsertRow(box, CheckpointKey(h.key, checkpoint), destination, envelope, Some(h.token));
      id := Some(box.rows[CheckpointKey(h.key, checkpoint)].id);
    }
  }

  /** The outbox took the message: a new one is pending and was never tried, a replay keeps all but the token. */
  predicate Taken(b: Box, b': Box, m: MessageKey, id: nat, destination: string, envelope: string, token: nat) {
    && m in b'.rows && b'.rows == b.rows[m := b'.rows[m]] && b'.rows[m].id == id && b'.nextId == b.nextId + 1
    && (if m in b.rows then
          && b'.rows[m] == b.rows[m].(fencingToken := b'.rows[m].fencingToken)
          && var was := b.rows[m].fencingToken;
             b'.rows[m].fencingToken == if was.Some? && was.value > token then was else Some(token)
        else b'.rows[m] == Message(b.nextId, destination, envelope, Some(token), Pending, 0))
  }

  /** So the next drain that is not full takes every newly accepted message. */
  lemma EmissionsAreDrained(b: Box, b': Box, m: MessageKey, id: nat, destination: string, envelope: string, token: nat,
                          limit: nat, ks: seq<MessageKey>)
    requires Taken(b, b', m, id, destination, envelope, token) && m !in b.rows
    requires PendingBatch(b', limit, ks) && |ks| < limit
    ensures m in ks && b'.rows[m].destination == destination && b'.rows[m].envelope == envelope
  {
    assert IsPending(b', m);
  }
}
