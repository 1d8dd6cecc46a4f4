/**
 Every run of the continuous kit with one recording sink. An emission is admitted when its lease is current and its
 id is new; it is recorded when the delegate behind the sink has returned, which may be later. What every run keeps.
 */
module ContinuousKitRuns {
  import opened Wrappers
  import opened ContinuousTables
  import opened ContinuousKitTables
  import opened ContinuousKitHistory

  datatype Emission = Emission(lease: LeaseHandle, stableId: string, event: string)

  datatype EmissionId = EmissionId(key: Key, stableId: string)

  datatype Sink = Sink(seen: set<EmissionId>, inFlight: seq<Emission>, records: seq<Emission>)

  /** The kit, the sink, and every emission the sink ever admitted, in order. */
  datatype System = System(kit: Kit, sink: Sink, admitted: seq<Emission>, seconds: LeaseSeconds)

  datatype SystemEvent =
    | Elapse(elapsed: nat)
    | DeployOne(deployment: DeploymentId)
    | AddInstance(instance: InstanceId)
    | ReconcileOne(deployment: DeploymentId, desired: seq<Partition>)
    | TickOnce(deployment: DeploymentId, tasks: nat -> TaskState)
    | Expire(key: Key)
    | DrainOne(deployment: DeploymentId)
    | RenewByHand(lease: LeaseHandle)
    | RevokeByHand(lease: LeaseHandle)
    | Admit(emission: Emission)
    | Complete(index: nat, ok: bool)
    | Emit(emission: Emission, ok: bool)

  function IdOf(e: Emission): EmissionId {
    EmissionId(e.lease.key, e.stableId)
  }

  function Begin(instance: InstanceId, seconds: LeaseSeconds): (s: System)
    ensures KitInv(s.kit)
  {
    System(Kit(0, LeaseTable(0, map[]), [instance], map[], map[], [], {}), Sink({}, [], []), [], seconds)
  }

  predicate Admits(s: System, e: Emission) {
    Current(s.kit.table, s.kit.now, e.lease) && IdOf(e) !in s.sink.seen
  }

  function AdmitOne(s: System, e: Emission): System {
    if Admits(s, e)
    then s.(sink := s.sink.(seen := s.sink.seen + {IdOf(e)}, inFlight := s.sink.inFlight + [e]), admitted := s.admitted + [e]) else s
  }

  function Without(xs: seq<Emission>, i: nat): seq<Emission>
    requires i < |xs|
  {
    xs[..i] + xs[i + 1..]
  }

  /** The delegate of an admitted emission returned, or raised: then it stays unrecorded, and its id stays used. */
  function CompleteOne(s: System, i: nat, ok: bool): System {
    if i >= |s.sink.inFlight| then s
    else
      s.(sink := s.sink.(inFlight := Without(s.sink.inFlight, i),
                         records := if ok then s.sink.records + [s.sink.inFlight[i]] else s.sink.records))
  }

  /** An emission through a delegate that does not suspend. */
  function EmitOne(s: System, e: Emission, ok: bool): System {
    if Admits(s, e) then CompleteOne(AdmitOne(s, e), |s.sink.inFlight|, ok) else s
  }

  /** Every listed partition has its record. */
  predicate OrdersListed(k: Kit) {
    forall d :: d in k.deployments ==> forall i :: 0 <= i < |k.deployments[d].order| ==> Key(d, k.deployments[d].order[i]) in k.partitions
  }

  function KitStep(k: Kit, e: SystemEvent, seconds: LeaseSeconds): Kit
    requires k.instances != []
    requires OrdersListed(k)
  {
    match e
    case Elapse(elapsed) => k.(now := k.now + elapsed)
    case DeployOne(d) => Deploy(k, d)
    case AddInstance(i) => k.(instances := k.instances + [i])
    case ReconcileOne(d, desired) =>
      if d !in k.deployments then k
      else
        var r := Reconcile(k, d, desired, seconds);
        if r.Some? then r.value else k
    case TickOnce(d, tasks) => if d in k.deployments then TickAll(k, d, k.deployments[d].order, tasks, seconds) else k
    case Expire(key) => ExpireLease(k, key)
    case DrainOne(d) => Drain(k, d)
    case RenewByHand(h) => k.(table := Extend(k.table, k.now, h, seconds))
    case RevokeByHand(h) => k.(table := Revoke(k.table, h))
    case Admit(_) => k
    case Complete(_, _) => k
    case Emit(_, _) => k
  }

  // ---- the kit in every run ----

  lemma DeployIsOk(k: Kit, d: DeploymentId)
    requires KitInv(k)
    ensures KitInv(Deploy(k, d)) && Forward(k.table, k.now, Deploy(k, d).table, Deploy(k, d).now)
  {
    var k' := Deploy(k, d);
    ForwardReflexively(k.table, k.now);
    forall e | e in k'.deployments ensures OrderOk(k', e) {
      assert e in k.deployments ==> OrderOk(k, e);
    }
    forall key | key in k.partitions ensures StaysLive(k, k', key) {
      assert PartitionOk(k, key);
    }
    SamePartitions(k, k');
  }

  /** Changes that leave partitions, contexts and tokens alone, keep orders, and take leases away at most. */
  lemma SamePartitions(k: Kit, k': Kit)
    requires KitInv(k) && k'.partitions == k.partitions && k'.contexts == k.contexts && k.cancelled <= k'.cancelled
    requires (forall c :: c in k'.cancelled ==> c < |k'.contexts|) && forall key :: key in k.partitions ==> StaysLive(k, k', key)
    requires k'.instances != []
    requires k'.table.token == k.table.token && k.now <= k'.now
    requires forall key :: key in k'.table.leases ==> key in k.table.leases && KeptEntry(k, k', key)
    requires forall d :: d in k.deployments ==> d in k'.deployments && k'.deployments[d].order == k.deployments[d].order
    requires forall d :: d in k'.deployments ==> OrderOk(k', d)
    ensures KitInv(k')
  {
    forall key | key in k'.partitions ensures PartitionOk(k', key) {
      assert PartitionOk(k, key);
    }
    forall key ensures EntryOk(k', key) {
      assert EntryOk(k, key);
      assert key in k'.table.leases ==> KeptEntry(k, k', key);
    }
    forall c ensures ContextOk(k', c) {
      assert ContextOk(k, c);
    }
    forall key ensures LiveOk(k', key) {
      assert LiveOk(k, key);
      if key in k.partitions {
        assert PartitionOk(k, key) && StaysLive(k, k', key);
        assert key in k'.table.leases ==> KeptEntry(k, k', key);
      }
    }
  }

  /** Whoever still holds its lease on an active deployment did so before, and is not told to stop now. */
  predicate StaysLive(k: Kit, k': Kit, key: Key)
    requires key in k.partitions
  {
    Settled(k', key) && key.deployment in k'.deployments && k'.deployments[key.deployment].active ==>
      && key.deployment in k.deployments && k.deployments[key.deployment].active
      && (k.partitions[key].context.Some? && k.partitions[key].context.value in k'.cancelled ==> k.partitions[key].context.value in k.cancelled)
  }

  predicate KeptEntry(k: Kit, k': Kit, key: Key)
    requires key in k'.table.leases && key in k.table.leases
  {
    var e, e' := k.table.leases[key], k'.table.leases[key];
    e'.owner == e.owner && e'.token == e.token && (Expired(e, k.now) ==> Expired(e', k'.now))
  }

  lemma TimeIsOk(k: Kit, elapsed: nat)
    requires KitInv(k)
    ensures KitInv(k.(now := k.now + elapsed)) && Forward(k.table, k.now, k.table, k.now + elapsed)
  {
    KeepsOrders(k, k.(now := k.now + elapsed));
    SamePartitions(k, k.(now := k.now + elapsed));
  }

  lemma KeepsOrders(k: Kit, k': Kit)
    requires KitInv(k) && k'.partitions == k.partitions && k'.deployments.Keys == k.deployments.Keys
    requires forall d :: d in k.deployments ==> k'.deployments[d].order == k.deployments[d].order
    ensures forall d :: d in k'.deployments ==> OrderOk(k', d)
  {
    forall d | d in k'.deployments ensures OrderOk(k', d) {
      assert OrderOk(k, d);
    }
  }

  lemma ByHandIsOk(k: Kit, h: LeaseHandle, seconds: LeaseSeconds)
    requires KitInv(k)
    ensures KitInv(k.(table := Extend(k.table, k.now, h, seconds)))
    ensures Forward(k.table, k.now, Extend(k.table, k.now, h, seconds), k.now)
    ensures KitInv(k.(table := Revoke(k.table, h))) && Forward(k.table, k.now, Revoke(k.table, h), k.now)
    ensures KitInv(k.(table := ForceExpire(k.table, k.now, h.key)))
    ensures Forward(k.table, k.now, ForceExpire(k.table, k.now, h.key), k.now)
  {
    var a, b, c := k.(table := Extend(k.table, k.now, h, seconds)), k.(table := Revoke(k.table, h)), k.(table := ForceExpire(k.table, k.now, h.key));
    KeepsOrders(k, a);
    KeepsOrders(k, b);
    KeepsOrders(k, c);
    SamePartitions(k, a);
    SamePartitions(k, b);
    SamePartitions(k, c);
  }

  lemma ExpireIsOk(k: Kit, key: Key)
    requires KitInv(k)
    ensures KitInv(ExpireLease(k, key)) && Forward(k.table, k.now, ExpireLease(k, key).table, ExpireLease(k, key).now)
  {
    if key in k.partitions {
      ByHandIsOk(k, LeaseHandle(key, "", 0), 1);
      var k1 := k.(table := ForceExpire(k.table, k.now, key));
      var k2 := CancelContext(k1, k.partitions[key].context);
      KeepsOrders(k1, k2);
      assert PartitionOk(k, key);
      forall other | other in k1.partitions ensures StaysLive(k1, k2, other) {
        assert PartitionOk(k, other);
      }
      SamePartitions(k1, k2);
    } else {
      ForwardReflexively(k.table, k.now);
    }
  }

  lemma DrainIsOk(k: Kit, d: DeploymentId)
    requires KitInv(k)
    ensures KitInv(Drain(k, d)) && Forward(k.table, k.now, Drain(k, d).table, Drain(k, d).now)
  {
    ForwardReflexively(k.table, k.now);
    if d in k.deployments {
      KeepsOrders(k, Drain(k, d));
      forall key | key in k.partitions ensures StaysLive(k, Drain(k, d), key) {
        assert PartitionOk(k, key);
      }
      SamePartitions(k, Drain(k, d));
    }
  }

  lemma AddInstanceIsOk(k: Kit, i: InstanceId)
    requires KitInv(k)
    ensures KitInv(k.(instances := k.instances + [i]))
  {
    KeepsOrders(k, k.(instances := k.instances + [i]));
    SamePartitions(k, k.(instances := k.instances + [i]));
  }

  lemma OrdersAreListed(k: Kit)
    requires KitInv(k)
    ensures OrdersListed(k)
  {
    forall d | d in k.deployments
      ensures forall i :: 0 <= i < |k.deployments[d].order| ==> Key(d, k.deployments[d].order[i]) in k.partitions
    {
      assert OrderOk(k, d);
    }
  }

  lemma ReconcileStepIsOk(k: Kit, d: DeploymentId, desired: seq<Partition>, seconds: LeaseSeconds)
    requires KitInv(k) && OrdersListed(k)
    ensures var k' := KitStep(k, ReconcileOne(d, desired), seconds); KitInv(k') && Forward(k.table, k.now, k'.table, k'.now)
  {
    ForwardReflexively(k.table, k.now);
    if d in k.deployments {
      ReconcileNeverRaises(k, d, desired, seconds, "");
    }
  }

  lemma TickStepIsOk(k: Kit, d: DeploymentId, tasks: nat -> TaskState, seconds: LeaseSeconds)
    requires KitInv(k) && OrdersListed(k)
    ensures var k' := KitStep(k, TickOnce(d, tasks), seconds); KitInv(k') && Forward(k.table, k.now, k'.table, k'.now)
  {
    ForwardReflexively(k.table, k.now);
    if d in k.deployments {
      TickAllIsOk(k, d, k.deployments[d].order, tasks, seconds);
    }
  }

  lemma KitStepIsOk(k: Kit, e: SystemEvent, seconds: LeaseSeconds)
    requires KitInv(k)
    ensures OrdersListed(k)
    ensures var k' := KitStep(k, e, seconds); KitInv(k') && Forward(k.table, k.now, k'.table, k'.now)
  {
    OrdersAreListed(k);
    match e
    case Elapse(elapsed) => TimeIsOk(k, elapsed);
    case DeployOne(d) => DeployIsOk(k, d);
    case AddInstance(i) =>
      AddInstanceIsOk(k, i);
      ForwardReflexively(k.table, k.now);
    case ReconcileOne(d, desired) => ReconcileStepIsOk(k, d, desired, seconds);
    case TickOnce(d, tasks) => TickStepIsOk(k, d, tasks, seconds);
    case Expire(key) => ExpireIsOk(k, key);
    case DrainOne(d) => DrainIsOk(k, d);
    case RenewByHand(h) => ByHandIsOk(k, h, seconds);
    case RevokeByHand(h) => ByHandIsOk(k, h, seconds);
    case _ => ForwardReflexively(k.table, k.now);
  }

  ghost function Step(s: System, e: SystemEvent): (t: System)
    requires KitInv(s.kit)
    ensures KitInv(t.kit) && Forward(s.kit.table, s.kit.now, t.kit.table, t.kit.now)
  {
    KitStepIsOk(s.kit, e, s.seconds);
    match e
    case Admit(emission) => AdmitOne(s, emission)
    case Complete(i, ok) => CompleteOne(s, i, ok)
    case Emit(emission, ok) => EmitOne(s, emission, ok)
    case _ => s.(kit := KitStep(s.kit, e, s.seconds))
  }

  ghost function Run(s: System, es: seq<SystemEvent>): (t: System)
    requires KitInv(s.kit)
    ensures KitInv(t.kit)
  {
    if es == [] then s else Step(Run(s, es[..|es| - 1]), es[|es| - 1])
  }

  lemma {:induction false} RunMovesForward(s: System, es: seq<SystemEvent>)
    requires KitInv(s.kit)
    ensures Forward(s.kit.table, s.kit.now, Run(s, es).kit.table, Run(s, es).kit.now)
  {
    if es == [] {
      ForwardReflexively(s.kit.table, s.kit.now);
    } else {
      var mid := Run(s, es[..|es| - 1]);
      RunMovesForward(s, es[..|es| - 1]);
      ForwardTransitively(s.kit.table, s.kit.now, mid.kit.table, mid.kit.now, Run(s, es).kit.table, Run(s, es).kit.now);
    }
  }

  /** In the kit too a handle that was given out and is refused now is refused for good. */
  lemma {:induction false} KitLeasesAreOneWay(s: System, es: seq<SystemEvent>, h: LeaseHandle)
    requires KitInv(s.kit) && h.token <= s.kit.table.token && !Current(s.kit.table, s.kit.now, h)
    ensures !Current(Run(s, es).kit.table, Run(s, es).kit.now, h)
  {
    RunMovesForward(s, es);
  }

  /** An unexpired lease always has its one holder, which is assigned or running and keeps that very handle. */
  lemma {:induction false} LeasesHaveTheirHolder(instance: InstanceId, seconds: LeaseSeconds, es: seq<SystemEvent>,
                                                 key: Key)
    requires var k := Run(Begin(instance, seconds), es).kit; Taken(k.table, k.now, key)
    ensures var k := Run(Begin(instance, seconds), es).kit;
            Settled(k, key) && k.partitions[key].lease == Some(LeaseHandle(key, k.table.leases[key].owner, k.table.leases[key].token))
  {
    var k := Run(Begin(instance, seconds), es).kit;
    assert EntryOk(k, key);
  }

  /** At most one context of a partition is live: every displaced task was told to stop before the next could start. */
  lemma {:induction false} OneLiveContext(instance: InstanceId, seconds: LeaseSeconds, es: seq<SystemEvent>, b: nat,
                                          c: nat)
    requires var k := Run(Begin(instance, seconds), es).kit;
             b < |k.contexts| && c < |k.contexts| && k.contexts[b] == k.contexts[c] && b !in k.cancelled && c !in k.cancelled
    ensures b == c
  {
    var k := Run(Begin(instance, seconds), es).kit;
    assert ContextOk(k, b) && ContextOk(k, c);
  }

  /** Whoever holds its lease on an active deployment runs under a context that was not told to stop. */
  lemma HoldersAreLive(k: Kit, key: Key)
    requires KitInv(k) && Holds(k, key) && key.deployment in k.deployments && k.deployments[key.deployment].active
    ensures key in k.partitions
    ensures var c := k.partitions[key].context;
            c.Some? && c.value < |k.contexts| && k.contexts[c.value] == key && c.value !in k.cancelled
  {
    assert PartitionOk(k, key) && LiveOk(k, key);
  }

  /** In every reachable state a holder on an active deployment has a live context, which is its partition's only one. */
  lemma {:induction false} HoldersHaveTheLiveContext(instance: InstanceId, seconds: LeaseSeconds, es: seq<SystemEvent>, key: Key)
    requires var k := Run(Begin(instance, seconds), es).kit;
             Holds(k, key) && key.deployment in k.deployments && k.deployments[key.deployment].active
    ensures var k := Run(Begin(instance, seconds), es).kit;
            && key in k.partitions && k.partitions[key].context.Some?
            && forall c: nat :: c < |k.contexts| && k.contexts[c] == key ==> (c !in k.cancelled <==> Some(c) == k.partitions[key].context)
  {
    var k := Run(Begin(instance, seconds), es).kit;
    HoldersAreLive(k, key);
    forall c: nat | c < |k.contexts| && k.contexts[c] == key ensures c !in k.cancelled <==> Some(c) == k.partitions[key].context {
      assert ContextOk(k, c);
    }
  }

  // ---- the sink in every run ----

  ghost predicate DistinctIds(es: seq<Emission>) {
    forall i, j :: 0 <= i < j < |es| ==> IdOf(es[i]) != IdOf(es[j])
  }

  /** Of two emissions of a partition the later one never has the smaller token. */
  ghost predicate InTokenOrder(es: seq<Emission>) {
    forall i, j :: 0 <= i < j < |es| && es[i].lease.key == es[j].lease.key ==> es[i].lease.token <= es[j].lease.token
  }

  predicate TokenOk(t: LeaseTable, e: Emission) {
    e.lease.token <= t.token && (e.lease.key in t.leases ==> e.lease.token <= t.leases[e.lease.key].token)
  }

  ghost predicate Within(es: seq<Emission>, admitted: seq<Emission>) {
    forall e :: e in es ==> e in admitted
  }

  ghost predicate NoCommonId(es: seq<Emission>, fs: seq<Emission>) {
    forall e, f :: e in es && f in fs ==> IdOf(e) != IdOf(f)
  }

  ghost predicate SinkInv(s: System) {
    && (forall e :: e in s.admitted ==> IdOf(e) in s.sink.seen)
    && (forall e :: e in s.admitted ==> TokenOk(s.kit.table, e))
    && DistinctIds(s.admitted) && InTokenOrder(s.admitted)
    && Within(s.sink.inFlight, s.admitted) && Within(s.sink.records, s.admitted)
    && DistinctIds(s.sink.inFlight) && DistinctIds(s.sink.records) && NoCommonId(s.sink.inFlight, s.sink.records)
  }

  lemma KitKeepsSink(s: System, k: Kit)
    requires SinkInv(s) && Forward(s.kit.table, s.kit.now, k.table, k.now)
    ensures SinkInv(s.(kit := k))
  {
    forall e | e in s.admitted ensures TokenOk(k.table, e) {
      assert TokenOk(s.kit.table, e);
    }
  }

  lemma AdmitKeepsSink(s: System, e: Emission)
    requires KitInv(s.kit) && SinkInv(s)
    ensures SinkInv(AdmitOne(s, e))
    ensures Admits(s, e) ==> forall f :: f in s.admitted && f.lease.key == e.lease.key ==> f.lease.token <= e.lease.token
  {
    if Admits(s, e) {
      assert EntryOk(s.kit, e.lease.key);
      forall f | f in s.admitted && f.lease.key == e.lease.key ensures f.lease.token <= e.lease.token {
        assert TokenOk(s.kit.table, f);
      }
      AppendId(s.admitted, e);
      AppendId(s.sink.inFlight, e);
    }
  }

  lemma AppendId(es: seq<Emission>, e: Emission)
    ensures (forall f :: f in es ==> IdOf(f) != IdOf(e)) && DistinctIds(es) ==> DistinctIds(es + [e])
    ensures (forall f :: f in es && f.lease.key == e.lease.key ==> f.lease.token <= e.lease.token) && InTokenOrder(es) ==> InTokenOrder(es + [e])
  {
  }

  lemma RemoveOne(es: seq<Emission>, i: nat)
    requires i < |es| && DistinctIds(es)
    ensures DistinctIds(Without(es, i))
    ensures forall e :: e in Without(es, i) ==> e in es && IdOf(e) != IdOf(es[i])
  {
    var rest := Without(es, i);
    forall j | 0 <= j < |rest| ensures rest[j] == es[if j < i then j else j + 1] {
    }
  }

  lemma CompleteKeepsSink(s: System, i: nat, ok: bool)
    requires SinkInv(s)
    ensures SinkInv(CompleteOne(s, i, ok))
  {
    if i < |s.sink.inFlight| {
      var e := s.sink.inFlight[i];
      assert e in s.sink.inFlight;
      RemoveOne(s.sink.inFlight, i);
      AppendId(s.sink.records, e);
    }
  }

  lemma SinkStep(s: System, e: SystemEvent)
    requires KitInv(s.kit) && SinkInv(s)
    ensures SinkInv(Step(s, e))
  {
    match e
    case Admit(emission) => AdmitKeepsSink(s, emission);
    case Complete(i, ok) => CompleteKeepsSink(s, i, ok);
    case Emit(emission, ok) =>
      AdmitKeepsSink(s, emission);
      CompleteKeepsSink(AdmitOne(s, emission), |s.sink.inFlight|, ok);
    case _ => KitKeepsSink(s, Step(s, e).kit);
  }

  lemma {:induction false} ReachableSink(s: System, es: seq<SystemEvent>)
    requires KitInv(s.kit) && SinkInv(s)
    ensures SinkInv(Run(s, es))
  {
    if es != [] {
      ReachableSink(s, es[..|es| - 1]);
      SinkStep(Run(s, es[..|es| - 1]), es[|es| - 1]);
    }
  }

  /**
   However emissions of any tasks, stale or not, interleave with the kit and with each other's delegates, no
   (deployment, partition, stable id) is recorded twice through a sink, and the sink admits the emissions of a
   partition in token order.
   */
  lemma {:induction false} NothingIsRecordedTwice(instance: InstanceId, seconds: LeaseSeconds, es: seq<SystemEvent>)
    ensures var s := Run(Begin(instance, seconds), es);
            && DistinctIds(s.sink.records) && Within(s.sink.records, s.admitted)
            && DistinctIds(s.admitted) && InTokenOrder(s.admitted)
  {
    ReachableSink(Begin(instance, seconds), es);
  }

  lemma RunOneMore(s: System, es: seq<SystemEvent>, e: SystemEvent)
    requires KitInv(s.kit)
    ensures Run(s, es + [e]) == Step(Run(s, es), e)
  {
    assert (es + [e])[..|es|] == es;
  }

  lemma LastApart<T>(es: seq<T>, fs: seq<T>)
    requires fs != []
    ensures fs == fs[..|fs| - 1] + [fs[|fs| - 1]]
    ensures es + fs == es + fs[..|fs| - 1] + [fs[|fs| - 1]]
  {
  }

  lemma RunSplits(s: System, es: seq<SystemEvent>, front: seq<SystemEvent>, e: SystemEvent)
    requires KitInv(s.kit) && es == front + [e]
    ensures Run(s, es) == Step(Run(s, front), e)
  {
    RunOneMore(s, front, e);
  }

  lemma {:induction false} RunAppends(s: System, es: seq<SystemEvent>, mid: System, fs: seq<SystemEvent>)
    requires KitInv(s.kit) && mid == Run(s, es)
    ensures Run(s, es + fs) == Run(mid, fs)
  {
    if fs == [] {
      assert es + fs == es;
    } else {
      var front, e := fs[..|fs| - 1], fs[|fs| - 1];
      RunAppends(s, es, mid, front);
      LastApart(es, fs);
      RunSplits(s, es + fs, es + front, e);
      RunSplits(mid, fs, front, e);
    }
  }
}
