/**
 What every call of the continuous kit keeps: at most one holder of a lease, at most one live context of a partition,
 and leases that only move on. Each call changes one partition, its lease entry and its contexts, so the invariant is
 shown once for such a change and once for their composition.
 */
module ContinuousKitHistory {
  import opened Wrappers
  import opened ContinuousTables
  import opened ContinuousKitTables

  // ---- the lease table moves forward ----

  /** A handle given out so far that is not current never becomes current again. */
  ghost predicate Weakens(t: LeaseTable, now: int, t': LeaseTable, now': int) {
    forall h: LeaseHandle :: h.token <= t.token && !Current(t, now, h) ==> !Current(t', now', h)
  }

  /** An entry keeps its token, or carries one nobody had before. */
  ghost predicate EntriesMoveOn(t: LeaseTable, t': LeaseTable) {
    forall k :: k in t'.leases ==> (k in t.leases && t'.leases[k].token == t.leases[k].token) || t'.leases[k].token > t.token
  }

  ghost predicate Forward(t: LeaseTable, now: int, t': LeaseTable, now': int) {
    t.token <= t'.token && now <= now' && Weakens(t, now, t', now') && EntriesMoveOn(t, t')
  }

  lemma ForwardReflexively(t: LeaseTable, now: int)
    ensures Forward(t, now, t, now)
  {
  }

  lemma ForwardTransitively(t: LeaseTable, now: int, u: LeaseTable, at: int, v: LeaseTable, later: int)
    requires Forward(t, now, u, at) && Forward(u, at, v, later)
    ensures Forward(t, now, v, later)
  {
    forall k | k in v.leases ensures (k in t.leases && v.leases[k].token == t.leases[k].token) || v.leases[k].token > t.token {
    }
  }

  lemma GrantMovesForward(t: LeaseTable, now: int, k: Key, owner: InstanceId, seconds: LeaseSeconds)
    ensures Forward(t, now, Grant(t, now, k, owner, seconds), now)
  {
  }

  // ---- the invariant of the kit ----

  predicate PartitionOk(k: Kit, key: Key)
    requires key in k.partitions
  {
    var p := k.partitions[key];
    && key.deployment in k.deployments && key.partition in k.deployments[key.deployment].order && p.partition.id == key.partition
    && (p.lease.Some? ==> p.lease.value.key == key && 1 <= p.lease.value.token <= k.table.token)
    && (HeldStatus(p.status) ==> p.lease.Some? && p.owner == Some(p.lease.value.owner) && p.context.Some?)
    && (p.status.Assigned? ==> p.task.None?)
    && (p.context.Some? ==> p.context.value < |k.contexts| && k.contexts[p.context.value] == key)
    && (p.task.Some? ==> p.task == p.context)
  }

  /** An unexpired lease belongs to an assigned or running partition that holds exactly its handle. */
  predicate EntryOk(k: Kit, key: Key) {
    key in k.table.leases ==>
      var e := k.table.leases[key];
      && 1 <= e.token <= k.table.token
      && (!Expired(e, k.now) ==>
          key in k.partitions && HeldStatus(k.partitions[key].status) &&
          k.partitions[key].lease == Some(LeaseHandle(key, e.owner, e.token)))
  }

  /** A context is cancelled unless it is the current one of its partition. */
  predicate ContextOk(k: Kit, c: nat) {
    c < |k.contexts| ==>
      c in k.cancelled || (k.contexts[c] in k.partitions && k.partitions[k.contexts[c]].context == Some(c))
  }

  /** Assigned or running, under a lease that the lease table still has and that has not run out. */
  predicate Holds(k: Kit, key: Key) {
    && key in k.partitions && k.partitions[key].status in {Assigned, PartitionStatus.Running} && k.partitions[key].lease.Some?
    && var h := k.partitions[key].lease.value;
       h.key in k.table.leases && k.table.leases[h.key].owner == h.owner && k.table.leases[h.key].token == h.token &&
       k.now < k.table.leases[h.key].expiresAt
  }

  lemma SettledHolds(k: Kit, key: Key)
    ensures Settled(k, key) <==> Holds(k, key)
  {
  }

  /** Nobody holds an unexpired lease of the partition. */
  predicate NoLease(k: Kit, key: Key) {
    key in k.table.leases ==> k.table.leases[key].expiresAt <= k.now
  }

  /** A partition that holds its lease on an active deployment has not been told to stop. */
  predicate LiveOk(k: Kit, key: Key) {
    (key in k.partitions && Settled(k, key) && key.deployment in k.deployments && k.deployments[key.deployment].active
     && k.partitions[key].context.Some?) ==> k.partitions[key].context.value !in k.cancelled
  }

  predicate OrderOk(k: Kit, d: DeploymentId)
    requires d in k.deployments
  {
    var order := k.deployments[d].order;
    && (forall i, j :: 0 <= i < j < |order| ==> order[i] != order[j])
    && (forall i :: 0 <= i < |order| ==> Key(d, order[i]) in k.partitions)
  }

  ghost predicate KitInv(k: Kit) {
    && k.instances != []
    && (forall d :: d in k.deployments ==> OrderOk(k, d))
    && (forall key :: key in k.partitions ==> PartitionOk(k, key))
    && (forall key :: EntryOk(k, key))
    && (forall c :: ContextOk(k, c)) && (forall c :: c in k.cancelled ==> c < |k.contexts|)
    && (forall key :: LiveOk(k, key))
  }

  /** Only one partition, its own lease entry and its contexts may differ. */
  ghost predicate ChangesOnly(k: Kit, k': Kit, key: Key) {
    && k'.now == k.now && k'.instances == k.instances && k'.deployments == k.deployments
    && key in k.partitions && key in k'.partitions && k'.partitions == k.partitions[key := k'.partitions[key]]
    && k.table.token <= k'.table.token
    && (forall other :: other != key ==>
        (other in k'.table.leases <==> other in k.table.leases) &&
        (other in k.table.leases ==> k'.table.leases[other] == k.table.leases[other]))
    && k.contexts <= k'.contexts && (forall c :: |k.contexts| <= c < |k'.contexts| ==> k'.contexts[c] == key)
    && k.cancelled <= k'.cancelled
    && (forall c :: c in k'.cancelled && c !in k.cancelled ==> c < |k'.contexts| && k'.contexts[c] == key)
  }

  lemma OneChangeIsOk(k: Kit, k': Kit, key: Key)
    requires KitInv(k) && ChangesOnly(k, k', key)
    requires PartitionOk(k', key) && EntryOk(k', key) && LiveOk(k', key)
    requires forall c :: 0 <= c < |k'.contexts| && k'.contexts[c] == key ==> ContextOk(k', c)
    ensures KitInv(k')
  {
    forall d | d in k'.deployments ensures OrderOk(k', d) {
      assert OrderOk(k, d);
    }
    forall other | other in k'.partitions ensures PartitionOk(k', other) {
      assert other != key ==> PartitionOk(k, other);
    }
    forall other ensures EntryOk(k', other) {
      assert EntryOk(k, other);
    }
    forall c ensures ContextOk(k', c) {
      assert ContextOk(k, c);
    }
    forall other ensures LiveOk(k', other) {
      assert LiveOk(k, other);
      assert other in k.partitions ==> PartitionOk(k, other);
    }
  }

  /** So a lease is never granted over an unexpired one: a partition that is not settled has none. */
  lemma {:induction false} UnsettledIsFree(k: Kit, key: Key)
    requires KitInv(k) && !Settled(k, key)
    ensures !Taken(k.table, k.now, key)
  {
    assert EntryOk(k, key);
  }

  lemma AssignIsOk(k: Kit, key: Key, seconds: LeaseSeconds)
    requires KitInv(k) && key in k.partitions && !Settled(k, key)
    ensures key.deployment in k.deployments
    ensures Assign(k, key, seconds).Some?
    ensures var k' := Assign(k, key, seconds).value;
            KitInv(k') && ChangesOnly(k, k', key) && Forward(k.table, k.now, k'.table, k'.now)
  {
    assert PartitionOk(k, key) && EntryOk(k, key);
    UnsettledIsFree(k, key);
    var k' := Assign(k, key, seconds).value;
    GrantMovesForward(k.table, k.now, key, Chosen(k, key.deployment), seconds);
    forall c | 0 <= c < |k'.contexts| && k'.contexts[c] == key ensures ContextOk(k', c) {
      assert c < |k.contexts| ==> ContextOk(k, c);
    }
    OneChangeIsOk(k, k', key);
  }

  lemma ReleasedIsFree(t: LeaseTable, now: int, lease: Option<LeaseHandle>, key: Key)
    requires key in t.leases && !Expired(t.leases[key], now) ==> lease == Some(LeaseHandle(key, t.leases[key].owner, t.leases[key].token))
    requires lease.Some? ==> lease.value.key == key
    ensures !Taken(ReleaseHeld(t, lease), now, key) && ReleaseHeld(t, lease).token == t.token
    ensures key in ReleaseHeld(t, lease).leases ==> ReleaseHeld(t, lease).leases[key] == t.leases[key] && key in t.leases
    ensures Forward(t, now, ReleaseHeld(t, lease), now)
  {
    if lease.Some? {
    } else {
      ForwardReflexively(t, now);
    }
  }

  lemma ReleaseIsOk(k: Kit, key: Key, status: PartitionStatus)
    requires KitInv(k) && key in k.partitions && !HeldStatus(status)
    ensures !Taken(FreePartition(k, key, status).table, k.now, key)
    ensures var k' := FreePartition(k, key, status);
            KitInv(k') && ChangesOnly(k, k', key) && Forward(k.table, k.now, k'.table, k'.now)
  {
    assert PartitionOk(k, key) && EntryOk(k, key);
    var k' := FreePartition(k, key, status);
    ReleasedIsFree(k.table, k.now, k.partitions[key].lease, key);
    forall c | 0 <= c < |k'.contexts| && k'.contexts[c] == key ensures ContextOk(k', c) {
      assert ContextOk(k, c);
    }
    OneChangeIsOk(k, k', key);
  }

  lemma HarvestIsOk(k: Kit, key: Key, failed: bool)
    requires KitInv(k) && key in k.partitions
    ensures var k' := Harvest(k, key, failed);
            KitInv(k') && ChangesOnly(k, k', key) && Forward(k.table, k.now, k'.table, k'.now)
  {
    assert PartitionOk(k, key) && EntryOk(k, key);
    var k' := Harvest(k, key, failed);
    ReleasedIsFree(k.table, k.now, k.partitions[key].lease, key);
    forall c | 0 <= c < |k'.contexts| && k'.contexts[c] == key ensures ContextOk(k', c) {
      assert ContextOk(k, c);
    }
    OneChangeIsOk(k, k', key);
  }

  lemma SameIsOk(k: Kit, key: Key)
    requires key in k.partitions
    ensures ChangesOnly(k, k, key) && Forward(k.table, k.now, k.table, k.now)
  {
    ForwardReflexively(k.table, k.now);
    assert k.partitions == k.partitions[key := k.partitions[key]];
  }

  lemma StartOrRenewIsOk(k: Kit, key: Key, seconds: LeaseSeconds)
    requires KitInv(k) && key in k.partitions
    ensures var k' := StartOrRenew(k, key, seconds);
            KitInv(k') && ChangesOnly(k, k', key) && Forward(k.table, k.now, k'.table, k'.now)
  {
    assert PartitionOk(k, key) && EntryOk(k, key) && LiveOk(k, key);
    SameIsOk(k, key);
    var k' := StartOrRenew(k, key, seconds);
    var p := k.partitions[key];
    forall c | 0 <= c < |k'.contexts| && k'.contexts[c] == key ensures ContextOk(k', c) {
      assert ContextOk(k, c);
    }
    OneChangeIsOk(k, k', key);
  }

  lemma DropLostIsOk(k: Kit, key: Key)
    requires KitInv(k) && key in k.partitions
    ensures var k' := DropLost(k, key);
            KitInv(k') && ChangesOnly(k, k', key) && Forward(k.table, k.now, k'.table, k'.now)
  {
    assert PartitionOk(k, key) && EntryOk(k, key);
    SameIsOk(k, key);
    var k' := DropLost(k, key);
    forall c | 0 <= c < |k'.contexts| && k'.contexts[c] == key ensures ContextOk(k', c) {
      assert ContextOk(k, c);
    }
    OneChangeIsOk(k, k', key);
  }

  lemma HarvestIfDoneIsOk(k: Kit, key: Key, tasks: nat -> TaskState)
    requires KitInv(k) && key in k.partitions
    ensures var k' := HarvestIfDone(k, key, tasks);
            KitInv(k') && ChangesOnly(k, k', key) && Forward(k.table, k.now, k'.table, k'.now)
  {
    var p := k.partitions[key];
    if p.task.Some? && tasks(p.task.value).Finished? {
      HarvestIsOk(k, key, tasks(p.task.value).failed);
    } else {
      SameIsOk(k, key);
    }
  }

  lemma ChangesTransitively(a: Kit, b: Kit, c: Kit, key: Key)
    requires ChangesOnly(a, b, key) && ChangesOnly(b, c, key)
    requires Forward(a.table, a.now, b.table, b.now) && Forward(b.table, b.now, c.table, c.now)
    ensures ChangesOnly(a, c, key) && Forward(a.table, a.now, c.table, c.now)
  {
    ForwardTransitively(a.table, a.now, b.table, b.now, c.table, c.now);
    forall i | |a.contexts| <= i < |c.contexts| ensures c.contexts[i] == key {
      assert i < |b.contexts| ==> c.contexts[i] == b.contexts[i];
    }
  }

  lemma TickOneIsOk(k: Kit, key: Key, tasks: nat -> TaskState, seconds: LeaseSeconds)
    requires KitInv(k) && key in k.partitions
    ensures key.deployment in k.deployments
    ensures var k' := TickOne(k, key, tasks, seconds);
            KitInv(k') && ChangesOnly(k, k', key) && Forward(k.table, k.now, k'.table, k'.now)
  {
    assert PartitionOk(k, key);
    var a := HarvestIfDone(k, key, tasks);
    HarvestIfDoneIsOk(k, key, tasks);
    if k.deployments[key.deployment].active {
      var b := StartOrRenew(a, key, seconds);
      StartOrRenewIsOk(a, key, seconds);
      ChangesTransitively(k, a, b, key);
      DropLostIsOk(b, key);
      ChangesTransitively(k, b, DropLost(b, key), key);
    }
  }

  /** A partition and its lease are as before. */
  predicate Untouched(k: Kit, k': Kit, key: Key) {
    && (key in k'.partitions <==> key in k.partitions)
    && (key in k.partitions ==> k'.partitions[key] == k.partitions[key])
    && (key in k'.table.leases <==> key in k.table.leases)
    && (key in k.table.leases ==> k'.table.leases[key] == k.table.leases[key])
  }

  lemma UntouchedTransitively(a: Kit, b: Kit, c: Kit, key: Key)
    requires Untouched(a, b, key) && Untouched(b, c, key)
    ensures Untouched(a, c, key)
  {
  }

  /** Nothing outside one deployment moves. */
  ghost predicate Elsewhere(k: Kit, k': Kit, d: DeploymentId) {
    forall key: Key :: key.deployment != d ==> Untouched(k, k', key)
  }

  lemma ElsewhereTransitively(a: Kit, b: Kit, c: Kit, d: DeploymentId)
    requires Elsewhere(a, b, d) && Elsewhere(b, c, d)
    ensures Elsewhere(a, c, d)
  {
    forall key: Key | key.deployment != d ensures Untouched(a, c, key) {
      UntouchedTransitively(a, b, c, key);
    }
  }

  /** The invariant held and holds, leases moved on, and only one deployment was touched. */
  ghost predicate GoodMove(k: Kit, k': Kit, d: DeploymentId) {
    && KitInv(k') && Forward(k.table, k.now, k'.table, k'.now) && Elsewhere(k, k', d)
    && k.contexts <= k'.contexts && k.cancelled <= k'.cancelled
  }

  lemma MovesTransitively(a: Kit, b: Kit, c: Kit, d: DeploymentId)
    requires GoodMove(a, b, d) && GoodMove(b, c, d)
    ensures GoodMove(a, c, d)
  {
    ForwardTransitively(a.table, a.now, b.table, b.now, c.table, c.now);
    ElsewhereTransitively(a, b, c, d);
  }

  lemma StayingIsGood(k: Kit, d: DeploymentId)
    requires KitInv(k)
    ensures GoodMove(k, k, d)
  {
    ForwardReflexively(k.table, k.now);
  }

  lemma OneChangeIsGood(k: Kit, k': Kit, key: Key)
    requires KitInv(k') && ChangesOnly(k, k', key) && Forward(k.table, k.now, k'.table, k'.now)
    ensures GoodMove(k, k', key.deployment)
    ensures forall other :: other != key ==> Untouched(k, k', other)
  {
  }

  lemma {:induction false} TickAllIsOk(k: Kit, d: DeploymentId, order: seq<PartitionId>, tasks: nat -> TaskState,
                                       seconds: LeaseSeconds)
    requires KitInv(k) && d in k.deployments && forall i :: 0 <= i < |order| ==> Key(d, order[i]) in k.partitions
    ensures GoodMove(k, TickAll(k, d, order, tasks, seconds), d)
  {
    if order == [] {
      StayingIsGood(k, d);
    } else {
      var n := |order| - 1;
      assert forall i :: 0 <= i < n ==> order[..n][i] == order[i];
      TickAllIsOk(k, d, order[..n], tasks, seconds);
      var mid, key := TickAll(k, d, order[..n], tasks, seconds), Key(d, order[n]);
      TickOneIsOk(mid, key, tasks, seconds);
      OneChangeIsGood(mid, TickOne(mid, key, tasks, seconds), key);
      MovesTransitively(k, mid, TickOne(mid, key, tasks, seconds), d);
    }
  }

  /**
   What a tick does to a partition. A finished task gives its lease up; on an active deployment an assigned
   partition with a current lease is started, a running one renewed, and one whose lease is lost is told to stop
   and becomes unassigned.
   */
  predicate TickedAt(k: Kit, k': Kit, key: Key, tasks: nat -> TaskState, seconds: LeaseSeconds)
    requires key in k.partitions && key.deployment in k.deployments
  {
    var p := k.partitions[key];
    && key in k'.partitions
    && var p' := k'.partitions[key];
       if p.task.Some? && tasks(p.task.value).Finished? then
         && p' == p.(task := None, owner := None, status := if tasks(p.task.value).failed then Failed else Unassigned)
         && NoLease(k', key)
       else if !k.deployments[key.deployment].active || p.status !in {Assigned, PartitionStatus.Running} then Untouched(k, k', key)
       else if Holds(k, key) then
         && Holds(k', key) && p' == p.(status := PartitionStatus.Running, task := if p.status == Assigned then p.context else p.task)
         && key in k.table.leases && key in k'.table.leases
         && k'.table.leases[key] == (if p.status == PartitionStatus.Running && p.task.Some? then k.table.leases[key].(expiresAt := k.now + seconds)
                                     else k.table.leases[key])
       else
         && p' == p.(status := Unassigned, owner := None, lease := None, task := if p.status == Assigned then p.context else p.task)
         && p.context.Some? && p.context.value in k'.cancelled
  }

  lemma HarvestFrees(k: Kit, key: Key, failed: bool)
    requires KitInv(k) && key in k.partitions
    ensures !Taken(Harvest(k, key, failed).table, k.now, key)
  {
    assert PartitionOk(k, key) && EntryOk(k, key);
    ReleasedIsFree(k.table, k.now, k.partitions[key].lease, key);
  }

  lemma {:induction false} TickOneMeans(k: Kit, key: Key, tasks: nat -> TaskState, seconds: LeaseSeconds)
    requires KitInv(k) && key in k.partitions && key.deployment in k.deployments
    ensures TickedAt(k, TickOne(k, key, tasks, seconds), key, tasks, seconds)
  {
    var p := k.partitions[key];
    assert PartitionOk(k, key) && EntryOk(k, key);
    if p.task.Some? && tasks(p.task.value).Finished? {
      HarvestFrees(k, key, tasks(p.task.value).failed);
    }
  }

  /** A tick does that to every partition of the deployment, each once. */
  lemma {:induction false} TickAllMeans(k: Kit, d: DeploymentId, order: seq<PartitionId>, tasks: nat -> TaskState,
                                        seconds: LeaseSeconds, i: nat)
    requires KitInv(k) && d in k.deployments && forall j :: 0 <= j < |order| ==> Key(d, order[j]) in k.partitions
    requires (forall j, l :: 0 <= j < l < |order| ==> order[j] != order[l]) && i < |order|
    ensures TickedAt(k, TickAll(k, d, order, tasks, seconds), Key(d, order[i]), tasks, seconds)
  {
    var front, last := order[..|order| - 1], Key(d, order[|order| - 1]);
    FrontOf(order);
    if i == |front| {
      TickedLast(k, d, front, tasks, seconds, last);
    } else {
      TickAllMeans(k, d, front, tasks, seconds, i);
      TickedInFront(k, d, front, tasks, seconds, Key(d, order[i]), last);
    }
  }

  /** A tick of the deployment ticks each of its partitions. */
  lemma {:induction false} TickEachMeans(k: Kit, d: DeploymentId, order: seq<PartitionId>, tasks: nat -> TaskState,
                                         seconds: LeaseSeconds)
    requires KitInv(k) && d in k.deployments && forall j :: 0 <= j < |order| ==> Key(d, order[j]) in k.partitions
    requires forall j, l :: 0 <= j < l < |order| ==> order[j] != order[l]
    ensures forall p :: p in order ==>
              Key(d, p) in k.partitions && TickedAt(k, TickAll(k, d, order, tasks, seconds), Key(d, p), tasks, seconds)
  {
    forall p | p in order
      ensures Key(d, p) in k.partitions && TickedAt(k, TickAll(k, d, order, tasks, seconds), Key(d, p), tasks, seconds)
    {
      var i :| 0 <= i < |order| && order[i] == p;
      TickAllMeans(k, d, order, tasks, seconds, i);
    }
  }

  lemma FrontOf(order: seq<PartitionId>)
    requires (forall j, l :: 0 <= j < l < |order| ==> order[j] != order[l]) && order != []
    ensures var front := order[..|order| - 1];
            && (forall j :: 0 <= j < |front| ==> front[j] == order[j] && front[j] != order[|order| - 1])
            && (forall j, l :: 0 <= j < l < |front| ==> front[j] != front[l])
  {
  }

  lemma TickedLast(k: Kit, d: DeploymentId, front: seq<PartitionId>, tasks: nat -> TaskState, seconds: LeaseSeconds,
                   key: Key)
    requires KitInv(k) && d in k.deployments && key.deployment == d && key in k.partitions
    requires forall j :: 0 <= j < |front| ==> Key(d, front[j]) in k.partitions && Key(d, front[j]) != key
    ensures TickedAt(k, TickOne(TickAll(k, d, front, tasks, seconds), key, tasks, seconds), key, tasks, seconds)
  {
    var mid := TickAll(k, d, front, tasks, seconds);
    TickAllIsOk(k, d, front, tasks, seconds);
    TickAllSkips(k, d, front, tasks, seconds, key);
    TickOneMeans(mid, key, tasks, seconds);
    TickedFrom(k, mid, TickOne(mid, key, tasks, seconds), key, tasks, seconds);
  }

  lemma TickedInFront(k: Kit, d: DeploymentId, front: seq<PartitionId>, tasks: nat -> TaskState, seconds: LeaseSeconds,
                      key: Key, last: Key)
    requires KitInv(k) && d in k.deployments && key.deployment == d && key in k.partitions && last in k.partitions
    requires (forall j :: 0 <= j < |front| ==> Key(d, front[j]) in k.partitions) && last.deployment == d && last != key
    requires TickedAt(k, TickAll(k, d, front, tasks, seconds), key, tasks, seconds)
    ensures TickedAt(k, TickOne(TickAll(k, d, front, tasks, seconds), last, tasks, seconds), key, tasks, seconds)
  {
    var mid := TickAll(k, d, front, tasks, seconds);
    TickAllIsOk(k, d, front, tasks, seconds);
    TickOneIsOk(mid, last, tasks, seconds);
    TickedLater(k, mid, TickOne(mid, last, tasks, seconds), key, last, tasks, seconds);
  }

  lemma {:induction false} TickAllSkips(k: Kit, d: DeploymentId, order: seq<PartitionId>, tasks: nat -> TaskState,
                                        seconds: LeaseSeconds, key: Key)
    requires KitInv(k) && d in k.deployments && forall j :: 0 <= j < |order| ==> Key(d, order[j]) in k.partitions && Key(d, order[j]) != key
    ensures Untouched(k, TickAll(k, d, order, tasks, seconds), key)
  {
    if order != [] {
      var n := |order| - 1;
      assert forall j :: 0 <= j < n ==> order[..n][j] == order[j];
      TickAllIsOk(k, d, order[..n], tasks, seconds);
      TickAllSkips(k, d, order[..n], tasks, seconds, key);
      var mid, last := TickAll(k, d, order[..n], tasks, seconds), Key(d, order[n]);
      TickOneIsOk(mid, last, tasks, seconds);
      OneChangeIsGood(mid, TickOne(mid, last, tasks, seconds), last);
      UntouchedTransitively(k, mid, TickOne(mid, last, tasks, seconds), key);
    }
  }

  /** Work on other partitions keeps what a tick did to one. */
  lemma TickedLater(k: Kit, mid: Kit, k': Kit, key: Key, other: Key, tasks: nat -> TaskState, seconds: LeaseSeconds)
    requires KitInv(mid) && key in k.partitions && key.deployment in k.deployments
    requires TickedAt(k, mid, key, tasks, seconds)
    requires ChangesOnly(mid, k', other) && other != key
    ensures TickedAt(k, k', key, tasks, seconds)
  {
    assert PartitionOk(mid, key);
  }

  /** What came before on other partitions does not matter to a tick of one. */
  lemma TickedFrom(k: Kit, mid: Kit, k': Kit, key: Key, tasks: nat -> TaskState, seconds: LeaseSeconds)
    requires KitInv(k) && KitInv(mid) && mid.deployments == k.deployments && mid.now == k.now
    requires key.deployment in k.deployments
    requires key in k.partitions && key in mid.partitions && Untouched(k, mid, key)
    requires TickedAt(mid, k', key, tasks, seconds)
    ensures TickedAt(k, k', key, tasks, seconds)
  {
    assert PartitionOk(k, key);
  }

  // ---- reconcile ----

  lemma ReleaseOneIsOk(k: Kit, key: Key, desired: seq<Partition>)
    requires KitInv(k)
    ensures var k' := ReleaseIfMissing(k, key, desired);
            && GoodMove(k, k', key.deployment)
            && (forall other :: other != key ==> Untouched(k, k', other))
            && ReleasedIfMissing(k, k', key, desired)
  {
    StayingIsGood(k, key.deployment);
    if key in k.partitions && !Wanted(desired, key.partition) && HeldStatus(k.partitions[key].status) {
      ReleaseIsOk(k, key, Inactive);
      OneChangeIsGood(k, FreePartition(k, key, Inactive), key);
    }
  }

  /** A held partition that discovery no longer returns is told to stop and gives up its lease; any other stays. */
  predicate ReleasedIfMissing(k: Kit, k': Kit, key: Key, desired: seq<Partition>) {
    if key in k.partitions && !Wanted(desired, key.partition) then GivenUp(k, k', key) else Untouched(k, k', key)
  }

  predicate GivenUp(k: Kit, k': Kit, key: Key) {
    if key in k.partitions && k.partitions[key].status in {Assigned, PartitionStatus.Running}
    then
      && key in k'.partitions
      && k'.partitions[key] == k.partitions[key].(status := Inactive, owner := None, lease := None, task := None)
      && NoLease(k', key) && (k.partitions[key].context.Some? ==> k.partitions[key].context.value in k'.cancelled)
    else Untouched(k, k', key)
  }

  lemma {:induction false} ReleaseMissingIsOk(k: Kit, d: DeploymentId, order: seq<PartitionId>, desired: seq<Partition>)
    requires KitInv(k)
    ensures GoodMove(k, ReleaseMissing(k, d, order, desired), d)
  {
    if order == [] {
      StayingIsGood(k, d);
    } else {
      var n := |order| - 1;
      ReleaseMissingIsOk(k, d, order[..n], desired);
      var mid, key := ReleaseMissing(k, d, order[..n], desired), Key(d, order[n]);
      ReleaseOneIsOk(mid, key, desired);
      MovesTransitively(k, mid, ReleaseIfMissing(mid, key, desired), d);
    }
  }

  predicate ReleasedOr(k: Kit, k': Kit, key: Key, desired: seq<Partition>, visited: bool) {
    if visited then ReleasedIfMissing(k, k', key, desired) else Untouched(k, k', key)
  }

  /** What the release loop does to each partition of the deployment. */
  lemma {:induction false} ReleaseMissingAt(k: Kit, d: DeploymentId, order: seq<PartitionId>, desired: seq<Partition>,
                                            p: PartitionId)
    requires KitInv(k)
    ensures ReleasedOr(k, ReleaseMissing(k, d, order, desired), Key(d, p), desired, p in order)
  {
    if order != [] {
      var n := |order| - 1;
      ReleaseMissingIsOk(k, d, order[..n], desired);
      ReleaseMissingAt(k, d, order[..n], desired, p);
      var mid, key := ReleaseMissing(k, d, order[..n], desired), Key(d, order[n]);
      ReleaseOneIsOk(mid, key, desired);
      assert ReleasedOr(mid, ReleaseIfMissing(mid, key, desired), Key(d, p), desired, p == order[n]);
      InFrontOrLast(order, p);
    }
  }

  lemma InFrontOrLast(order: seq<PartitionId>, p: PartitionId)
    requires order != []
    ensures p in order <==> p in order[..|order| - 1] || p == order[|order| - 1]
  {
    assert order == order[..|order| - 1] + [order[|order| - 1]];
  }

  // ---- placing ----

  lemma NotedSettles(k: Kit, d: DeploymentId, x: Partition)
    requires d in k.deployments
    ensures Settled(Noted(k, d, x), Key(d, x.id)) <==> Settled(k, Key(d, x.id))
  {
  }

  lemma NotedElsewhere(k: Kit, d: DeploymentId, x: Partition)
    requires d in k.deployments
    ensures Noted(k, d, x).table == k.table && Noted(k, d, x).now == k.now
    ensures forall other :: other != Key(d, x.id) ==> Untouched(k, Noted(k, d, x), other)
  {
  }

  lemma NotedIsOk(k: Kit, d: DeploymentId, x: Partition)
    requires KitInv(k) && d in k.deployments
    ensures GoodMove(k, Noted(k, d, x), d) && Noted(k, d, x).table == k.table && Noted(k, d, x).now == k.now
    ensures forall other :: other != Key(d, x.id) ==> Untouched(k, Noted(k, d, x), other)
    ensures Settled(Noted(k, d, x), Key(d, x.id)) <==> Settled(k, Key(d, x.id))
  {
    ForwardReflexively(k.table, k.now);
    NotedSettles(k, d, x);
    NotedElsewhere(k, d, x);
    if Key(d, x.id) in k.partitions {
      NotedAgain(k, d, x);
    } else {
      NotedFirst(k, d, x);
    }
  }

  lemma NotedAgain(k: Kit, d: DeploymentId, x: Partition)
    requires KitInv(k) && d in k.deployments && Key(d, x.id) in k.partitions
    ensures KitInv(Noted(k, d, x))
  {
    var key, k' := Key(d, x.id), Noted(k, d, x);
    assert PartitionOk(k, key) && EntryOk(k, key) && LiveOk(k, key);
    forall c | 0 <= c < |k'.contexts| && k'.contexts[c] == key ensures ContextOk(k', c) {
      assert ContextOk(k, c);
    }
    OneChangeIsOk(k, k', key);
  }

  lemma NotedFirst(k: Kit, d: DeploymentId, x: Partition)
    requires KitInv(k) && d in k.deployments && Key(d, x.id) !in k.partitions
    ensures KitInv(Noted(k, d, x))
  {
    var key, k' := Key(d, x.id), Noted(k, d, x);
    NotedFirstOrders(k, d, x);
    forall other ensures EntryOk(k', other) && LiveOk(k', other) {
      assert EntryOk(k, other) && LiveOk(k, other);
    }
    forall c ensures ContextOk(k', c) {
      assert ContextOk(k, c);
    }
  }

  lemma NotedFirstOrders(k: Kit, d: DeploymentId, x: Partition)
    requires KitInv(k) && d in k.deployments && Key(d, x.id) !in k.partitions
    ensures var k' := Noted(k, d, x);
            (forall e :: e in k'.deployments ==> OrderOk(k', e)) && forall other :: other in k'.partitions ==> PartitionOk(k', other)
  {
    var key, k' := Key(d, x.id), Noted(k, d, x);
    forall e | e in k'.deployments ensures OrderOk(k', e) {
      assert OrderOk(k, e);
    }
    forall other | other in k'.partitions ensures PartitionOk(k', other) {
      assert other != key ==> PartitionOk(k, other);
      assert k'.deployments[d].order[|k.deployments[d].order|] == x.id;
    }
  }

  /**
   A partition that holds its lease keeps it; any other gets a fresh one, with a token nobody had before, under a
   context nobody had before, and whoever it displaces is told to stop.
   */
  predicate PlacedAt(k: Kit, k': Kit, key: Key, seconds: LeaseSeconds) {
    && Holds(k', key) && key in k'.partitions
    && var p' := k'.partitions[key];
       if Holds(k, key)
       then
         && p' == k.partitions[key].(partition := p'.partition)
         && key in k.table.leases && key in k'.table.leases && k'.table.leases[key] == k.table.leases[key]
       else
         && p'.owner.Some? && p'.lease.Some? && p'.context.Some?
         && p' == KitPartition(p'.partition, Assigned, p'.owner, Some(LeaseHandle(key, p'.owner.value, p'.lease.value.token)), p'.context, None)
         && p'.owner.value in k.instances && p'.lease.value.token > k.table.token
         && key in k'.table.leases && k'.table.leases[key] == Entry(p'.owner.value, p'.lease.value.token, k.now + seconds)
         && |k.contexts| <= p'.context.value < |k'.contexts| && k'.contexts[p'.context.value] == key
         && (key in k.partitions && k.partitions[key].context.Some? ==> k.partitions[key].context.value in k'.cancelled)
  }

  predicate PlacedOr(k: Kit, k': Kit, key: Key, seconds: LeaseSeconds, visited: bool) {
    if visited then PlacedAt(k, k', key, seconds) else Untouched(k, k', key)
  }

  lemma PlaceIsOk(k: Kit, d: DeploymentId, x: Partition, seconds: LeaseSeconds)
    requires KitInv(k) && d in k.deployments
    ensures Place(k, d, x, seconds).Some?
    ensures var k' := Place(k, d, x, seconds).value;
            && GoodMove(k, k', d) && k'.now == k.now && k'.instances == k.instances
            && d in k'.deployments && k'.deployments[d].active == k.deployments[d].active
            && (!k.deployments[d].active ==> k'.table == k.table)
            && forall other :: other != Key(d, x.id) ==> Untouched(k, k', other)
  {
    var key, noted := Key(d, x.id), Noted(k, d, x);
    NotedIsOk(k, d, x);
    if !Settled(noted, key) && noted.deployments[d].active {
      AssignIsOk(noted, key, seconds);
      var k' := Assign(noted, key, seconds).value;
      OneChangeIsGood(noted, k', key);
      MovesTransitively(k, noted, k', d);
      forall other | other != key ensures Untouched(k, k', other) {
        assert Untouched(k, noted, other) && Untouched(noted, k', other);
      }
    }
  }

  lemma AssignSettles(k: Kit, key: Key, seconds: LeaseSeconds)
    requires KitInv(k) && key in k.partitions && !Settled(k, key) && key.deployment in k.deployments
    ensures Assign(k, key, seconds).Some? && PlacedAt(k, Assign(k, key, seconds).value, key, seconds)
  {
    UnsettledIsFree(k, key);
    Scheduling.LeastLoadedIsLeast(LoadMap(k, key.deployment, k.deployments[key.deployment].order), k.instances);
  }

  lemma PlaceSettles(k: Kit, d: DeploymentId, x: Partition, seconds: LeaseSeconds)
    requires KitInv(k) && d in k.deployments && k.deployments[d].active
    ensures Place(k, d, x, seconds).Some? && PlacedAt(k, Place(k, d, x, seconds).value, Key(d, x.id), seconds)
  {
    var key, noted := Key(d, x.id), Noted(k, d, x);
    NotedIsOk(k, d, x);
    if !Settled(noted, key) {
      AssignSettles(noted, key, seconds);
    }
  }

  lemma UntouchedStaysSettled(k: Kit, k': Kit, key: Key)
    requires KitInv(k) && Untouched(k, k', key) && k'.now == k.now
    ensures Settled(k', key) <==> Settled(k, key)
  {
    if key in k.partitions {
      assert PartitionOk(k, key);
    }
  }

  lemma PlacedTransitively(a: Kit, b: Kit, c: Kit, key: Key, seconds: LeaseSeconds, first: bool, second: bool)
    requires KitInv(a) && KitInv(b) && PlacedOr(a, b, key, seconds, first) && PlacedOr(b, c, key, seconds, second)
    requires a.now == b.now == c.now && a.table.token <= b.table.token && b.instances == a.instances
    requires a.contexts <= b.contexts <= c.contexts && a.cancelled <= b.cancelled <= c.cancelled
    ensures PlacedOr(a, c, key, seconds, first || second)
  {
    if !first {
      UntouchedStaysSettled(a, b, key);
    }
    if !second {
      UntouchedStaysSettled(b, c, key);
    }
  }

  /** Placing the discovered partitions never meets a lease that is taken, and settles each of them. */
  lemma {:induction false} PlaceAllIsOk(k: Kit, d: DeploymentId, xs: seq<Partition>, seconds: LeaseSeconds)
    requires KitInv(k) && d in k.deployments
    ensures PlaceAll(k, d, xs, seconds).Some?
    ensures var k' := PlaceAll(k, d, xs, seconds).value;
            && GoodMove(k, k', d) && k'.now == k.now && k'.instances == k.instances
            && d in k'.deployments && k'.deployments[d].active == k.deployments[d].active
            && (!k.deployments[d].active ==> k'.table == k.table)
  {
    if xs == [] {
      StayingIsGood(k, d);
    } else {
      var n := |xs| - 1;
      PlaceAllIsOk(k, d, xs[..n], seconds);
      var mid := PlaceAll(k, d, xs[..n], seconds).value;
      PlaceIsOk(mid, d, xs[n], seconds);
      MovesTransitively(k, mid, Place(mid, d, xs[n], seconds).value, d);
    }
  }

  lemma WantedInFrontOrLast(xs: seq<Partition>, p: PartitionId)
    requires xs != []
    ensures Wanted(xs, p) <==> Wanted(xs[..|xs| - 1], p) || p == xs[|xs| - 1].id
  {
    var n := |xs| - 1;
    if Wanted(xs[..n], p) {
      var i :| 0 <= i < n && xs[..n][i].id == p;
      assert xs[i].id == p;
    }
    if Wanted(xs, p) && p != xs[n].id {
      var i :| 0 <= i < |xs| && xs[i].id == p;
      assert xs[..n][i].id == p;
    }
  }

  lemma {:induction false} PlaceAllAt(k: Kit, d: DeploymentId, xs: seq<Partition>, seconds: LeaseSeconds,
                                      p: PartitionId)
    requires KitInv(k) && d in k.deployments && k.deployments[d].active
    ensures PlaceAll(k, d, xs, seconds).Some?
    ensures PlacedOr(k, PlaceAll(k, d, xs, seconds).value, Key(d, p), seconds, Wanted(xs, p))
  {
    if xs != [] {
      var n := |xs| - 1;
      PlaceAllIsOk(k, d, xs[..n], seconds);
      PlaceAllAt(k, d, xs[..n], seconds, p);
      var mid := PlaceAll(k, d, xs[..n], seconds).value;
      PlaceIsOk(mid, d, xs[n], seconds);
      PlaceSettles(mid, d, xs[n], seconds);
      var last := Place(mid, d, xs[n], seconds).value;
      assert PlacedOr(mid, last, Key(d, p), seconds, p == xs[n].id);
      PlacedTransitively(k, mid, last, Key(d, p), seconds, Wanted(xs[..n], p), p == xs[n].id);
      WantedInFrontOrLast(xs, p);
    }
  }

  /** Recorded or known already, with nothing granted: an inactive partition is merely free again. */
  predicate NotedOnly(k: Kit, k': Kit, key: Key) {
    && key in k'.partitions
    && k'.partitions[key] == (if key in k.partitions
                              then k.partitions[key].(partition := k'.partitions[key].partition,
                                                      status := if k.partitions[key].status == Inactive then Unassigned else k.partitions[key].status)
                              else KitPartition(k'.partitions[key].partition, Unassigned, None, None, None, None))
    && (key in k'.table.leases <==> key in k.table.leases)
    && (key in k.table.leases ==> k'.table.leases[key] == k.table.leases[key])
  }

  lemma PlaceAllNext(k: Kit, d: DeploymentId, xs: seq<Partition>, seconds: LeaseSeconds, n: nat)
    requires k.instances != [] && d in k.deployments && n < |xs| && PlaceAll(k, d, xs[..n], seconds).Some?
    ensures PlaceAll(k, d, xs[..n + 1], seconds) == Place(PlaceAll(k, d, xs[..n], seconds).value, d, xs[n], seconds)
  {
    assert xs[..n + 1][..n] == xs[..n];
  }

  /** One turn of the placing loop. */
  lemma PlaceNext(k: Kit, d: DeploymentId, xs: seq<Partition>, seconds: LeaseSeconds, n: nat)
    requires KitInv(k) && d in k.deployments && n < |xs|
    ensures PlaceAll(k, d, xs[..n], seconds).Some? && PlaceAll(k, d, xs[..n + 1], seconds).Some?
    ensures var mid, next := PlaceAll(k, d, xs[..n], seconds).value, PlaceAll(k, d, xs[..n + 1], seconds).value;
            && KitInv(mid) && d in mid.deployments && mid.now == k.now && mid.instances == k.instances
            && mid.deployments[d].active == k.deployments[d].active && Place(mid, d, xs[n], seconds) == Some(next)
            && forall other :: other != Key(d, xs[n].id) ==> Untouched(mid, next, other)
  {
    PlaceAllIsOk(k, d, xs[..n], seconds);
    PlaceAllNext(k, d, xs, seconds, n);
    PlaceIsOk(PlaceAll(k, d, xs[..n], seconds).value, d, xs[n], seconds);
  }

  /** On a deployment that is not active, discovery is recorded and nothing assigned. */
  lemma {:induction false} PlaceAllNotes(k: Kit, d: DeploymentId, xs: seq<Partition>, seconds: LeaseSeconds, p: PartitionId)
    requires KitInv(k) && d in k.deployments && !k.deployments[d].active
    ensures PlaceAll(k, d, xs, seconds).Some?
    ensures NotedOr(k, PlaceAll(k, d, xs, seconds).value, Key(d, p), Wanted(xs, p))
  {
    if xs != [] {
      var n := |xs| - 1;
      PlaceAllNotes(k, d, xs[..n], seconds, p);
      PlaceNext(k, d, xs, seconds, n);
      assert xs[..n + 1] == xs;
      var mid, k' := PlaceAll(k, d, xs[..n], seconds).value, PlaceAll(k, d, xs, seconds).value;
      PlaceNotes(mid, d, xs[n], seconds);
      WantedInFrontOrLast(xs, p);
      NotedTransitively(k, mid, k', Key(d, p), Wanted(xs[..n], p), p == xs[n].id);
    }
  }

  predicate NotedOr(k: Kit, k': Kit, key: Key, visited: bool) {
    if visited then NotedOnly(k, k', key) else Untouched(k, k', key)
  }

  lemma NotedTransitively(a: Kit, b: Kit, c: Kit, key: Key, first: bool, second: bool)
    requires NotedOr(a, b, key, first) && NotedOr(b, c, key, second)
    ensures NotedOr(a, c, key, first || second)
  {
  }

  lemma PlaceNotes(k: Kit, d: DeploymentId, x: Partition, seconds: LeaseSeconds)
    requires k.instances != [] && d in k.deployments && !k.deployments[d].active
    ensures Place(k, d, x, seconds).Some? && NotedOnly(k, Place(k, d, x, seconds).value, Key(d, x.id))
  {
  }

  /**
   A reconcile of the kit never raises: it never asks for a lease that is taken. On an active deployment every
   desired partition ends assigned or running under a lease that is current; settled ones keep theirs, the others
   get a fresh token and a registered instance; partitions no longer desired give their lease up; nothing outside
   the deployment moves.
   */
  lemma {:induction false} ReconcileNeverRaises(k: Kit, d: DeploymentId, desired: seq<Partition>,
                                                seconds: LeaseSeconds, p: PartitionId)
    requires KitInv(k) && d in k.deployments
    ensures Reconcile(k, d, desired, seconds).Some?
    ensures var k', key := Reconcile(k, d, desired, seconds).value, Key(d, p);
            && GoodMove(k, k', d) && k'.now == k.now && k'.instances == k.instances
            && (k.deployments[d].active && Wanted(desired, p) ==> PlacedAt(k, k', key, seconds))
            && (k.deployments[d].active && !Wanted(desired, p) ==> ReleasedIfMissing(k, k', key, desired))
            && (!k.deployments[d].active ==> k'.table.token == k.table.token)
            && (!k.deployments[d].active ==> if Wanted(desired, p) then NotedOnly(k, k', key) else ReleasedIfMissing(k, k', key, desired))
  {
    var order, key := k.deployments[d].order, Key(d, p);
    var released := ReleaseMissing(k, d, order, desired);
    ReleaseMissingFrame(k, d, order, desired);
    ReleaseMissingIsOk(k, d, order, desired);
    ReleaseMissingAt(k, d, order, desired, p);
    PlaceAllIsOk(released, d, desired, seconds);
    var k' := PlaceAll(released, d, desired, seconds).value;
    MovesTransitively(k, released, k', d);
    assert key in k.partitions ==> PartitionOk(k, key);
    if k.deployments[d].active {
      PlaceAllAt(released, d, desired, seconds, p);
    } else {
      PlaceAllNotes(released, d, desired, seconds, p);
    }
    if !Wanted(desired, p) {
      ReleasedStays(k, released, k', key, desired);
    } else if k.deployments[d].active {
      PlacedAfterRelease(k, released, k', key, seconds);
    }
  }

  lemma PlacedAfterRelease(k: Kit, released: Kit, k': Kit, key: Key, seconds: LeaseSeconds)
    requires KitInv(k) && Untouched(k, released, key) && PlacedAt(released, k', key, seconds)
    requires released.now == k.now && released.instances == k.instances && released.table.token >= k.table.token
    requires k.contexts <= released.contexts && k.cancelled <= released.cancelled
    ensures PlacedAt(k, k', key, seconds)
  {
    UntouchedStaysSettled(k, released, key);
  }

  lemma ReleasedStays(k: Kit, released: Kit, k': Kit, key: Key, desired: seq<Partition>)
    requires ReleasedIfMissing(k, released, key, desired) && Untouched(released, k', key)
    requires k'.now == released.now == k.now && released.cancelled <= k'.cancelled
    ensures ReleasedIfMissing(k, k', key, desired)
  {
  }
}
