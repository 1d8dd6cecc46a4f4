/**
 The order in which a recording sink ends up with its records. A delegate that suspends lets others record first, so
 the token order of a partition can break: exactly when, for a whole run and for every future of a state.
 */
module ContinuousKitOrder {
  import Tables = ContinuousTables
  import opened ContinuousKitTables
  import opened ContinuousKitHistory
  import opened ContinuousKitRuns

  type Key = Tables.Key

  // ---- over a whole run ----

  /** A newer owner of the partition was recorded while the delegate was busy. */
  ghost predicate Overtaken(s: System, e: Emission) {
    exists f :: f in s.sink.records && f.lease.key == e.lease.key && f.lease.token > e.lease.token
  }

  /** A delegate returns for an emission that was overtaken. */
  ghost predicate ReturnsLate(s: System, e: SystemEvent) {
    e.Complete? && e.ok && e.index < |s.sink.inFlight| && Overtaken(s, s.sink.inFlight[e.index])
  }

  ghost predicate NeverLate(s: System, es: seq<SystemEvent>)
    requires KitInv(s.kit)
  {
    es == [] || (NeverLate(s, es[..|es| - 1]) && !ReturnsLate(Run(s, es[..|es| - 1]), es[|es| - 1]))
  }

  lemma AppendOrder(records: seq<Emission>, e: Emission)
    ensures InTokenOrder(records + [e]) <==>
            InTokenOrder(records) && forall f :: f in records && f.lease.key == e.lease.key ==> f.lease.token <= e.lease.token
  {
    var more := records + [e];
    if InTokenOrder(more) {
      assert forall i :: 0 <= i < |records| ==> more[i] == records[i];
      forall f | f in records && f.lease.key == e.lease.key ensures f.lease.token <= e.lease.token {
        var j :| 0 <= j < |records| && records[j] == f;
        assert more[j] == f && more[|records|] == e;
      }
    }
  }

  lemma EmissionKeepsOrder(s: System, e: Emission, ok: bool)
    requires KitInv(s.kit) && SinkInv(s)
    ensures InTokenOrder(EmitOne(s, e, ok).sink.records) <==> InTokenOrder(s.sink.records)
  {
    AdmitKeepsSink(s, e);
    AppendOrder(s.sink.records, e);
  }

  lemma OrderStep(s: System, e: SystemEvent)
    requires KitInv(s.kit) && SinkInv(s)
    ensures InTokenOrder(Step(s, e).sink.records) <==> InTokenOrder(s.sink.records) && !ReturnsLate(s, e)
  {
    match e
    case Complete(i, ok) =>
      if i < |s.sink.inFlight| {
        AppendOrder(s.sink.records, s.sink.inFlight[i]);
      }
    case Emit(emission, ok) => EmissionKeepsOrder(s, emission, ok);
    case _ =>
  }

  lemma {:induction false} OrderOfRecords(s: System, es: seq<SystemEvent>)
    requires KitInv(s.kit) && SinkInv(s) && InTokenOrder(s.sink.records)
    ensures InTokenOrder(Run(s, es).sink.records) <==> NeverLate(s, es)
  {
    if es != [] {
      OrderOfRecords(s, es[..|es| - 1]);
      ReachableSink(s, es[..|es| - 1]);
      OrderStep(Run(s, es[..|es| - 1]), es[|es| - 1]);
    }
  }

  /** The recorded tokens of every partition are in order exactly when no delegate of the run returned late. */
  lemma {:induction false} RecordsAreInOrder(instance: Tables.InstanceId, seconds: LeaseSeconds, es: seq<SystemEvent>)
    ensures InTokenOrder(Run(Begin(instance, seconds), es).sink.records) <==> NeverLate(Begin(instance, seconds), es)
  {
    OrderOfRecords(Begin(instance, seconds), es);
  }

  /** Every delegate that suspends returns while the lease of its emission is still current. */
  ghost predicate DelegatesReturnInTime(s: System, es: seq<SystemEvent>)
    requires KitInv(s.kit)
  {
    es == [] ||
    (var n := |es| - 1;
     && DelegatesReturnInTime(s, es[..n])
     && var mid := Run(s, es[..n]);
        (es[n].Complete? && es[n].ok && es[n].index < |mid.sink.inFlight| ==>
         Current(mid.kit.table, mid.kit.now, mid.sink.inFlight[es[n].index].lease)))
  }

  /** Whoever holds the current lease of a partition is not overtaken. */
  lemma CurrentIsNotLate(s: System, e: Emission)
    requires SinkInv(s) && Current(s.kit.table, s.kit.now, e.lease)
    ensures !Overtaken(s, e)
  {
    forall f | f in s.sink.records ensures TokenOk(s.kit.table, f) {
    }
  }

  lemma {:induction false} InTimeIsNeverLate(s: System, es: seq<SystemEvent>)
    requires KitInv(s.kit) && SinkInv(s) && DelegatesReturnInTime(s, es)
    ensures NeverLate(s, es)
  {
    if es != [] {
      var n := |es| - 1;
      var mid := Run(s, es[..n]);
      InTimeIsNeverLate(s, es[..n]);
      ReachableSink(s, es[..n]);
      if es[n].Complete? && es[n].ok && es[n].index < |mid.sink.inFlight| {
        CurrentIsNotLate(mid, mid.sink.inFlight[es[n].index]);
      }
    }
  }

  /** Then the recorded tokens of a partition never decrease; delegates that do not suspend need no care at all. */
  lemma {:induction false} RecordedTokensNeverDecrease(s: System, es: seq<SystemEvent>)
    requires KitInv(s.kit) && SinkInv(s) && InTokenOrder(s.sink.records) && DelegatesReturnInTime(s, es)
    ensures InTokenOrder(Run(s, es).sink.records)
  {
    InTimeIsNeverLate(s, es);
    OrderOfRecords(s, es);
  }

  // ---- for every future of a state ----

  /** The deployment stopped being active; it never becomes active again. */
  predicate Draining(k: Kit, key: Key) {
    key.deployment in k.deployments && !k.deployments[key.deployment].active
  }

  /** A newer owner of the partition may emit right now. */
  predicate Superseded(k: Kit, h: Tables.LeaseHandle) {
    Taken(k.table, k.now, h.key) && k.table.leases[h.key].token > h.token
  }

  /**
   Nothing can overtake the emission any more: nobody newer was recorded, is with a delegate or holds a lease, and
   nobody will be given one.
   */
  ghost predicate Quiet(s: System, e: Emission) {
    && Draining(s.kit, e.lease.key) && !Superseded(s.kit, e.lease) && !Overtaken(s, e)
    && forall f :: f in s.sink.inFlight && f.lease.key == e.lease.key ==> f.lease.token <= e.lease.token
  }

  ghost predicate AllQuiet(s: System) {
    forall e :: e in s.sink.inFlight ==> Quiet(s, e)
  }

  /** No later emission meets a delegate that suspends. */
  predicate AdmitsNothing(es: seq<SystemEvent>) {
    forall i :: 0 <= i < |es| ==> !es[i].Admit?
  }

  lemma TickOneGrantsNothing(k: Kit, key: Key, tasks: nat -> TaskState, seconds: LeaseSeconds)
    requires key in k.partitions && key.deployment in k.deployments
    ensures TickOne(k, key, tasks, seconds).table.token == k.table.token
  {
  }

  lemma {:induction false} TickAllGrantsNothing(k: Kit, d: Tables.DeploymentId, order: seq<Tables.PartitionId>,
                                                tasks: nat -> TaskState, seconds: LeaseSeconds)
    requires d in k.deployments && forall i :: 0 <= i < |order| ==> Tables.Key(d, order[i]) in k.partitions
    ensures TickAll(k, d, order, tasks, seconds).table.token == k.table.token
  {
    if order != [] {
      var n := |order| - 1;
      assert forall i :: 0 <= i < n ==> order[..n][i] == order[i];
      TickAllGrantsNothing(k, d, order[..n], tasks, seconds);
      TickOneGrantsNothing(TickAll(k, d, order[..n], tasks, seconds), Tables.Key(d, order[n]), tasks, seconds);
    }
  }

  /** A reconcile changes no deployment but its own, and that one stays as active as it was. */
  lemma {:induction false} PlaceAllKeepsActive(k: Kit, d: Tables.DeploymentId, xs: seq<Tables.Partition>,
                                               seconds: LeaseSeconds, other: Tables.DeploymentId)
    requires KitInv(k) && d in k.deployments && other in k.deployments && PlaceAll(k, d, xs, seconds).Some?
    ensures var k' := PlaceAll(k, d, xs, seconds).value;
            other in k'.deployments && k'.deployments[other].active == k.deployments[other].active
  {
    if xs != [] {
      PlaceAllKeepsActive(k, d, xs[..|xs| - 1], seconds, other);
    }
  }

  lemma ReconcileDrains(k: Kit, d: Tables.DeploymentId, desired: seq<Tables.Partition>, seconds: LeaseSeconds, key: Key)
    requires KitInv(k) && d in k.deployments && Draining(k, key)
    ensures var r := Reconcile(k, d, desired, seconds);
            && r.Some? && KitInv(r.value) && Draining(r.value, key)
            && (key in r.value.table.leases ==> r.value.table.leases[key].token <= k.table.token)
  {
    ReconcileNeverRaises(k, d, desired, seconds, key.partition);
    var released := ReleaseMissing(k, d, k.deployments[d].order, desired);
    ReleaseMissingFrame(k, d, k.deployments[d].order, desired);
    ReleaseMissingIsOk(k, d, k.deployments[d].order, desired);
    PlaceAllKeepsActive(released, d, desired, seconds, key.deployment);
    var k' := Reconcile(k, d, desired, seconds).value;
    assert EntryOk(k, key) && EntryOk(k', key);
    assert d != key.deployment ==> Untouched(k, k', key);
  }

  /** A draining partition is never given a new lease. */
  lemma KitStepDrains(k: Kit, e: SystemEvent, seconds: LeaseSeconds, key: Key)
    requires KitInv(k) && OrdersListed(k) && Draining(k, key)
    ensures var k' := KitStep(k, e, seconds);
            Draining(k', key) && (key in k'.table.leases ==> k'.table.leases[key].token <= k.table.token)
  {
    assert EntryOk(k, key);
    match e
    case ReconcileOne(d, desired) =>
      if d in k.deployments {
        ReconcileDrains(k, d, desired, seconds, key);
      }
    case TickOnce(d, tasks) =>
      if d in k.deployments {
        TickAllGrantsNothing(k, d, k.deployments[d].order, tasks, seconds);
        KitStepIsOk(k, e, seconds);
        assert EntryOk(KitStep(k, e, seconds), key);
      }
    case _ =>
  }

  /** So on a draining deployment whoever is not superseded never will be. */
  lemma NotSupersededLater(k: Kit, e: SystemEvent, seconds: LeaseSeconds, h: Tables.LeaseHandle)
    requires KitInv(k) && OrdersListed(k) && Draining(k, h.key) && !Superseded(k, h)
    ensures var k' := KitStep(k, e, seconds); Draining(k', h.key) && !Superseded(k', h)
  {
    var k' := KitStep(k, e, seconds);
    KitStepDrains(k, e, seconds, h.key);
    KitStepIsOk(k, e, seconds);
    if Superseded(k', h) {
      var entry := k'.table.leases[h.key];
      var newer := Tables.LeaseHandle(h.key, entry.owner, entry.token);
      assert Current(k'.table, k'.now, newer) && newer.token <= k.table.token;
    }
  }

  lemma QuietKitStep(s: System, e: SystemEvent)
    requires KitInv(s.kit) && OrdersListed(s.kit) && AllQuiet(s)
    ensures AllQuiet(s.(kit := KitStep(s.kit, e, s.seconds)))
  {
    var s' := s.(kit := KitStep(s.kit, e, s.seconds));
    forall f | f in s'.sink.inFlight ensures Quiet(s', f) {
      assert Quiet(s, f);
      NotSupersededLater(s.kit, e, s.seconds, f.lease);
    }
  }

  lemma QuietComplete(s: System, i: nat, ok: bool)
    requires SinkInv(s) && AllQuiet(s)
    ensures AllQuiet(CompleteOne(s, i, ok)) && !ReturnsLate(s, Complete(i, ok))
  {
    var s' := CompleteOne(s, i, ok);
    if i < |s.sink.inFlight| {
      var e := s.sink.inFlight[i];
      assert e in s.sink.inFlight && Quiet(s, e);
      RemoveOne(s.sink.inFlight, i);
      forall f | f in s'.sink.inFlight ensures Quiet(s', f) {
        assert Quiet(s, f);
      }
    }
  }

  lemma QuietEmit(s: System, e: Emission, ok: bool)
    requires KitInv(s.kit) && SinkInv(s) && AllQuiet(s)
    ensures AllQuiet(EmitOne(s, e, ok))
  {
    var s' := EmitOne(s, e, ok);
    if Admits(s, e) {
      var n := |s.sink.inFlight|;
      assert Without(s.sink.inFlight + [e], n) == s.sink.inFlight;
      forall f | f in s'.sink.inFlight ensures Quiet(s', f) {
        assert Quiet(s, f);
        assert e.lease.key == f.lease.key ==> e.lease.token <= f.lease.token;
      }
    }
  }

  lemma QuietStep(s: System, e: SystemEvent)
    requires KitInv(s.kit) && SinkInv(s) && AllQuiet(s) && !e.Admit?
    ensures AllQuiet(Step(s, e)) && !ReturnsLate(s, e)
  {
    OrdersAreListed(s.kit);
    match e
    case Complete(i, ok) => QuietComplete(s, i, ok);
    case Emit(emission, ok) => QuietEmit(s, emission, ok);
    case _ => QuietKitStep(s, e);
  }

  lemma {:induction false} QuietForever(s: System, es: seq<SystemEvent>)
    requires KitInv(s.kit) && SinkInv(s) && InTokenOrder(s.sink.records) && AllQuiet(s) && AdmitsNothing(es)
    ensures AllQuiet(Run(s, es)) && InTokenOrder(Run(s, es).sink.records)
  {
    if es != [] {
      var n := |es| - 1;
      QuietForever(s, es[..n]);
      ReachableSink(s, es[..n]);
      QuietStep(Run(s, es[..n]), es[n]);
      OrderStep(Run(s, es[..n]), es[n]);
    }
  }

  // ---- and a future that breaks the order otherwise ----

  /** The events so far lead from `s` to `t` and admit nothing. */
  ghost predicate Leads(s: System, es: seq<SystemEvent>, t: System)
    requires KitInv(s.kit)
  {
    t == Run(s, es) && AdmitsNothing(es)
  }

  lemma Then(s: System, es: seq<SystemEvent>, t: System, e: SystemEvent) returns (es': seq<SystemEvent>, t': System)
    requires KitInv(s.kit) && Leads(s, es, t) && !e.Admit?
    ensures Leads(s, es', t') && t' == Step(t, e)
  {
    RunOneMore(s, es, e);
    es', t' := es + [e], Step(t, e);
  }

  lemma BreaksWhenOvertaken(s: System, es: seq<SystemEvent>, t: System, e: Emission) returns (es': seq<SystemEvent>)
    requires KitInv(s.kit) && SinkInv(s) && Leads(s, es, t) && e in t.sink.inFlight && Overtaken(t, e)
    ensures AdmitsNothing(es') && !InTokenOrder(Run(s, es').sink.records)
  {
    var i :| 0 <= i < |t.sink.inFlight| && t.sink.inFlight[i] == e;
    var t';
    ReachableSink(s, es);
    OrderStep(t, Complete(i, true));
    es', t' := Then(s, es, t, Complete(i, true));
  }

  lemma OthersStay(es: seq<Emission>, i: nat, j: nat)
    requires i < |es| && j < |es| && i != j
    ensures es[i] in Without(es, j)
  {
    assert Without(es, j)[if i < j then i else i - 1] == es[i];
  }

  /** A newer emission that is with a delegate may return first. */
  lemma BreaksWhenAnotherReturns(s: System, e: Emission, f: Emission) returns (es: seq<SystemEvent>)
    requires KitInv(s.kit) && SinkInv(s) && e in s.sink.inFlight && f in s.sink.inFlight
    requires f.lease.key == e.lease.key && f.lease.token > e.lease.token
    ensures AdmitsNothing(es) && !InTokenOrder(Run(s, es).sink.records)
  {
    var i :| 0 <= i < |s.sink.inFlight| && s.sink.inFlight[i] == e;
    var j :| 0 <= j < |s.sink.inFlight| && s.sink.inFlight[j] == f;
    var t;
    es, t := Then(s, [], s, Complete(j, true));
    OthersStay(s.sink.inFlight, i, j);
    assert t.sink.records[|s.sink.records|] == f;
    es := BreaksWhenOvertaken(s, es, t, e);
  }

  lemma {:induction false} LongerThanAll(seen: set<EmissionId>) returns (n: nat)
    ensures forall x :: x in seen ==> |x.stableId| < n
  {
    if seen == {} {
      n := 0;
    } else {
      var x :| x in seen;
      n := LongerThanAll(seen - {x});
      n := if |x.stableId| < n then n else |x.stableId| + 1;
    }
  }

  /** A newer owner may emit something new while the delegate is busy. */
  lemma BreaksWhenSuperseded(s: System, es: seq<SystemEvent>, t: System, e: Emission) returns (es': seq<SystemEvent>)
    requires KitInv(s.kit) && SinkInv(s) && Leads(s, es, t) && e in t.sink.inFlight && Superseded(t.kit, e.lease)
    ensures AdmitsNothing(es') && !InTokenOrder(Run(s, es').sink.records)
  {
    var entry := t.kit.table.leases[e.lease.key];
    var n := LongerThanAll(t.sink.seen);
    var late := Emission(Tables.LeaseHandle(e.lease.key, entry.owner, entry.token), seq(n, _ => 'a'), "");
    assert Admits(t, late) by {
      assert |IdOf(late).stableId| == n;
    }
    var t';
    es', t' := Then(s, es, t, SystemEvent.Emit(late, true));
    assert Without(t.sink.inFlight + [late], |t.sink.inFlight|) == t.sink.inFlight;
    assert t'.sink.records[|t.sink.records|] == late;
    es' := BreaksWhenOvertaken(s, es', t', e);
  }

  /** Reconciling one partition settles it; a fresh lease has a token above all before. */
  lemma Reconciled(s: System, d: Tables.DeploymentId, x: Tables.Partition)
    requires KitInv(s.kit) && d in s.kit.deployments && s.kit.deployments[d].active
    ensures var s', key := Step(s, ReconcileOne(d, [x])), Tables.Key(d, x.id);
            && s'.sink == s.sink && s'.admitted == s.admitted && Settled(s'.kit, key)
            && d in s'.kit.deployments && s'.kit.deployments[d].active
            && s'.kit.partitions[key].lease.value.key == key
            && (!Settled(s.kit, key) ==> s'.kit.partitions[key].lease.value.token > s.kit.table.token)
  {
    var desired, s' := [x], Step(s, ReconcileOne(d, [x]));
    ReconcileNeverRaises(s.kit, d, desired, s.seconds, x.id);
    assert desired[0].id == x.id && Tables.Wanted(desired, x.id);
    assert PartitionOk(s'.kit, Tables.Key(d, x.id));
    var released := ReleaseMissing(s.kit, d, s.kit.deployments[d].order, desired);
    ReleaseMissingFrame(s.kit, d, s.kit.deployments[d].order, desired);
    ReleaseMissingIsOk(s.kit, d, s.kit.deployments[d].order, desired);
    PlaceAllKeepsActive(released, d, desired, s.seconds, d);
  }

  lemma ExpiredIsUnsettled(k: Kit, key: Key)
    requires KitInv(k) && Settled(k, key)
    ensures !Settled(ExpireLease(k, key), key)
  {
    assert PartitionOk(k, key);
  }

  predicate Active(k: Kit, key: Key) {
    key.deployment in k.deployments && k.deployments[key.deployment].active
  }

  /** On an active deployment the lease of a partition can be made to lapse. */
  lemma Lapsing(s: System, es: seq<SystemEvent>, t: System, key: Key) returns (es': seq<SystemEvent>, t': System)
    requires KitInv(s.kit) && Leads(s, es, t) && Active(t.kit, key)
    ensures Leads(s, es', t') && t'.sink == t.sink && t'.kit.table.token == t.kit.table.token
    ensures Active(t'.kit, key) && !Settled(t'.kit, key)
  {
    if Settled(t.kit, key) {
      ExpiredIsUnsettled(t.kit, key);
      es', t' := Then(s, es, t, Expire(key));
    } else {
      es', t' := es, t;
    }
  }

  /** Then it can be given to a newer owner. */
  lemma TakeOver(s: System, e: Emission) returns (es: seq<SystemEvent>, t: System)
    requires KitInv(s.kit) && e.lease.token <= s.kit.table.token && !Draining(s.kit, e.lease.key)
    ensures Leads(s, es, t) && t.sink == s.sink && Superseded(t.kit, e.lease)
  {
    var key, x := e.lease.key, Tables.Partition(e.lease.key.partition, "", 1);
    es, t := Then(s, [], s, DeployOne(key.deployment));
    es, t := Lapsing(s, es, t, key);
    Reconciled(t, key.deployment, x);
    es, t := Then(s, es, t, ReconcileOne(key.deployment, [x]));
  }

  lemma BreakingFuture(s: System, e: Emission) returns (es: seq<SystemEvent>)
    requires KitInv(s.kit) && SinkInv(s) && e in s.sink.inFlight && !Quiet(s, e)
    ensures AdmitsNothing(es) && !InTokenOrder(Run(s, es).sink.records)
  {
    if Overtaken(s, e) {
      es := BreaksWhenOvertaken(s, [], s, e);
    } else if Superseded(s.kit, e.lease) {
      es := BreaksWhenSuperseded(s, [], s, e);
    } else if !Draining(s.kit, e.lease.key) {
      assert e in s.admitted && TokenOk(s.kit.table, e);
      var first, t := TakeOver(s, e);
      es := BreaksWhenSuperseded(s, first, t, e);
    } else {
      var f :| f in s.sink.inFlight && f.lease.key == e.lease.key && f.lease.token > e.lease.token;
      es := BreaksWhenAnotherReturns(s, e, f);
    }
  }

  /**
   The exact condition on a state: as long as no later delegate suspends, the records stay in order whatever happens
   if and only if nothing can overtake any of the emissions that are with a delegate now.
   */
  lemma {:induction false} OrderIsSafe(instance: Tables.InstanceId, seconds: LeaseSeconds, past: seq<SystemEvent>)
    requires InTokenOrder(Run(Begin(instance, seconds), past).sink.records)
    ensures var s := Run(Begin(instance, seconds), past);
            AllQuiet(s) <==>
            forall future: seq<SystemEvent> :: AdmitsNothing(future) ==> InTokenOrder(Run(s, future).sink.records)
  {
    var s := Run(Begin(instance, seconds), past);
    ReachableSink(Begin(instance, seconds), past);
    if AllQuiet(s) {
      forall future: seq<SystemEvent> | AdmitsNothing(future) ensures InTokenOrder(Run(s, future).sink.records) {
        QuietForever(s, future);
      }
    } else {
      var e :| e in s.sink.inFlight && !Quiet(s, e);
      var es := BreakingFuture(s, e);
      assert AdmitsNothing(es) && !InTokenOrder(Run(s, es).sink.records);
    }
  }

  const SLOT := Tables.Key("deployment:local-1", "p")

  /** The partition is deployed and settled under its first lease, and nothing was emitted. */
  lemma FirstLease(instance: Tables.InstanceId, seconds: LeaseSeconds) returns (es: seq<SystemEvent>, s: System)
    ensures Leads(Begin(instance, seconds), es, s) && s.sink == Sink({}, [], []) && Settled(s.kit, SLOT)
    ensures s.kit.partitions[SLOT].lease.value.key == SLOT && !Draining(s.kit, SLOT)
  {
    var d, x := SLOT.deployment, Tables.Partition(SLOT.partition, "", 1);
    es, s := Then(Begin(instance, seconds), [], Begin(instance, seconds), DeployOne(d));
    Reconciled(s, d, x);
    es, s := Then(Begin(instance, seconds), es, s, ReconcileOne(d, [x]));
  }

  /** One emission under that lease is with its delegate. */
  lemma FirstEmission(instance: Tables.InstanceId, seconds: LeaseSeconds)
    returns (es: seq<SystemEvent>, s: System, e: Emission)
    ensures s == Run(Begin(instance, seconds), es) && s.sink.inFlight == [e] && !Quiet(s, e)
  {
    var before;
    es, before := FirstLease(instance, seconds);
    e := Emission(before.kit.partitions[SLOT].lease.value, "a", "");
    RunOneMore(Begin(instance, seconds), es, Admit(e));
    es, s := es + [Admit(e)], AdmitOne(before, e);
  }

  /** On an active deployment that is enough: a takeover can break the order. */
  lemma {:induction false} SlowDelegateBreaksOrder(instance: Tables.InstanceId, seconds: LeaseSeconds)
    ensures exists es: seq<SystemEvent> :: !InTokenOrder(Run(Begin(instance, seconds), es).sink.records)
  {
    var es, s, e := FirstEmission(instance, seconds);
    ReachableSink(Begin(instance, seconds), es);
    var future := BreakingFuture(s, e);
    RunAppends(Begin(instance, seconds), es, s, future);
    assert !InTokenOrder(Run(Begin(instance, seconds), es + future).sink.records);
  }
}
