/**
 The takeover-safe emission log (shard_pulse.py over the fenced outbox): any number of tasks for any shards emit
 their ticks while leases move and messages are drained.
 */
module ShardPulse {
  import opened Wrappers
  import opened Outbox
  import opened ContinuousTables
  import opened PulseKeys
  import Leases

  /** One run_partition call: its lease, its shard and the next tick of its loop. */
  datatype Task = Task(lease: LeaseHandle, shard: nat, next: nat, running: bool)

  /** An emission that passed the fence. */
  datatype Emission = Emission(deployment: DeploymentId, shard: nat, tick: nat, token: nat, destination: string, envelope: string)

  datatype System = System(store: Store, pulses: nat, tasks: seq<Task>, accepted: seq<Emission>)

  /** Everything but an emission is free to happen around the tasks. */
  datatype PulseEvent =
    | Outside(event: Event)
    | Start(lease: LeaseHandle, shard: nat)
    | Pulse(task: nat, destination: string, envelope: string)
    | Stop(task: nat)

  function Begin(pulses: nat): System {
    System(Init, pulses, [], [])
  }

  /** One turn of the loop: a rejected emission raises and ends the loop. */
  function StepPulse(s: System, i: nat, destination: string, envelope: string): System
    requires i < |s.tasks|
  {
    var t := s.tasks[i];
    if !t.running || t.next >= s.pulses then s
    else if Accepts(s.store, t.lease) then
      System(ContinuousTables.Step(s.store, Emit(t.lease, destination, StableId(t.shard, t.next), envelope)),
             s.pulses,
             s.tasks[i := t.(next := t.next + 1)],
             s.accepted + [Emission(t.lease.key.deployment, t.shard, t.next, t.lease.token, destination, envelope)])
    else s.(tasks := s.tasks[i := t.(running := false)])
  }

  function Step(s: System, e: PulseEvent): System {
    match e
    case Outside(event) => if event.Emit? then s else s.(store := ContinuousTables.Step(s.store, event))
    case Start(lease, shard) =>
      if lease.key.partition == ShardId(shard) then s.(tasks := s.tasks + [Task(lease, shard, 0, true)]) else s
    case Pulse(i, destination, envelope) => if i < |s.tasks| then StepPulse(s, i, destination, envelope) else s
    case Stop(i) => if i < |s.tasks| then s.(tasks := s.tasks[i := s.tasks[i].(running := false)]) else s
  }

  function Run(s: System, es: seq<PulseEvent>): System {
    if es == [] then s else Step(Run(s, es[..|es| - 1]), es[|es| - 1])
  }

  // ---- the log ----

  predicate Present(b: Box, d: DeploymentId, shard: nat, tick: nat) {
    PulseKey(d, shard, tick) in b.rows
  }

  function PulseRow(b: Box, d: DeploymentId, shard: nat, tick: nat): Message
    requires Present(b, d, shard, tick)
  {
    b.rows[PulseKey(d, shard, tick)]
  }

  predicate OfTick(e: Emission, d: DeploymentId, shard: nat, tick: nat) {
    e.deployment == d && e.shard == shard && e.tick == tick
  }

  /** The first accepted emission of a tick. */
  function FirstAccepted(accepted: seq<Emission>, d: DeploymentId, shard: nat, tick: nat): Option<Emission> {
    if accepted == [] then None
    else
      var earlier, last := FirstAccepted(accepted[..|accepted| - 1], d, shard, tick), accepted[|accepted| - 1];
      if earlier.Some? || !OfTick(last, d, shard, tick) then earlier else Some(last)
  }

  /** The row of a tick says what its first accepted emission said. */
  predicate SaysWhat(b: Box, first: Option<Emission>, d: DeploymentId, shard: nat, tick: nat) {
    Present(b, d, shard, tick) ==>
      first.Some? && PulseRow(b, d, shard, tick).destination == first.value.destination &&
      PulseRow(b, d, shard, tick).envelope == first.value.envelope
  }

  /** The largest token an accepted emission of this tick carried. */
  function MaxToken(accepted: seq<Emission>, d: DeploymentId, shard: nat, tick: nat): Option<nat> {
    if accepted == [] then None
    else
      var last := accepted[|accepted| - 1];
      Greatest(MaxToken(accepted[..|accepted| - 1], d, shard, tick),
               if OfTick(last, d, shard, tick) then Some(last.token) else None)
  }

  predicate EntryOk(s: System, d: DeploymentId, shard: nat, tick: nat) {
    var b := s.store.box;
    && (Present(b, d, shard, tick) ==> tick < s.pulses && PulseRow(b, d, shard, tick).id < b.nextId)
    && (Present(b, d, shard, tick) ==> MaxToken(s.accepted, d, shard, tick).Some?)
    && (MaxToken(s.accepted, d, shard, tick).Some? ==>
        Present(b, d, shard, tick) && PulseRow(b, d, shard, tick).fencingToken == MaxToken(s.accepted, d, shard, tick))
    && (FirstAccepted(s.accepted, d, shard, tick).Some? ==> MaxToken(s.accepted, d, shard, tick).Some?)
    && SaysWhat(b, FirstAccepted(s.accepted, d, shard, tick), d, shard, tick)
  }

  predicate EarlierOk(b: Box, d: DeploymentId, shard: nat, earlier: nat, tick: nat) {
    Present(b, d, shard, tick) && earlier < tick ==>
      Present(b, d, shard, earlier) && PulseRow(b, d, shard, earlier).id < PulseRow(b, d, shard, tick).id
  }

  predicate TaskOk(s: System, t: Task, tick: nat) {
    && t.lease.key.partition == ShardId(t.shard)
    && t.next <= s.pulses
    && (tick < t.next ==> Present(s.store.box, t.lease.key.deployment, t.shard, tick))
  }

  ghost predicate LogInv(s: System) {
    && (forall d, shard, tick :: EntryOk(s, d, shard, tick))
    && (forall d, shard, earlier, tick :: EarlierOk(s.store.box, d, shard, earlier, tick))
    && (forall i, tick :: 0 <= i < |s.tasks| ==> TaskOk(s, s.tasks[i], tick))
  }

  /** Other transactions leave the identity, the content and the fencing token of every pulse row alone. */
  lemma OutsideKeepsPulses(s: Store, e: Event, d: DeploymentId, shard: nat, tick: nat)
    requires !e.Emit?
    ensures var b, b' := s.box, ContinuousTables.Step(s, e).box;
            && b.nextId <= b'.nextId
            && (Present(b, d, shard, tick) <==> Present(b', d, shard, tick))
            && (Present(b, d, shard, tick) ==>
                && PulseRow(b', d, shard, tick).id == PulseRow(b, d, shard, tick).id
                && PulseRow(b', d, shard, tick).fencingToken == PulseRow(b, d, shard, tick).fencingToken
                && PulseRow(b', d, shard, tick).destination == PulseRow(b, d, shard, tick).destination
                && PulseRow(b', d, shard, tick).envelope == PulseRow(b, d, shard, tick).envelope)
  {
    if e.Checkpoint? {
      assert PulseKey(d, shard, tick).kind == "emission" && "emission"[0] != "checkpoint"[0];
    }
  }

  lemma LogInvOutside(s: System, e: Event)
    requires LogInv(s) && !e.Emit?
    ensures LogInv(Step(s, Outside(e)))
  {
    var s' := Step(s, Outside(e));
    forall d, shard, tick ensures EntryOk(s', d, shard, tick) {
      assert EntryOk(s, d, shard, tick);
      OutsideKeepsPulses(s.store, e, d, shard, tick);
    }
    forall d, shard, earlier, tick ensures EarlierOk(s'.store.box, d, shard, earlier, tick) {
      assert EarlierOk(s.store.box, d, shard, earlier, tick);
      OutsideKeepsPulses(s.store, e, d, shard, tick);
      OutsideKeepsPulses(s.store, e, d, shard, earlier);
    }
    forall i, tick | 0 <= i < |s'.tasks| ensures TaskOk(s', s'.tasks[i], tick) {
      assert TaskOk(s, s.tasks[i], tick);
      OutsideKeepsPulses(s.store, e, s.tasks[i].lease.key.deployment, s.tasks[i].shard, tick);
    }
  }

  /** An accepted pulse adds exactly its own row, or raises the token of the row that is there. */
  lemma EmitChangesOneEntry(s: System, i: nat, destination: string, envelope: string, d: DeploymentId, shard: nat, tick: nat)
    requires LogInv(s) && i < |s.tasks|
    requires s.tasks[i].running && s.tasks[i].next < s.pulses && Accepts(s.store, s.tasks[i].lease)
    ensures var t, s' := s.tasks[i], StepPulse(s, i, destination, envelope);
            var b, b' := s.store.box, s'.store.box;
            var mine := d == t.lease.key.deployment && shard == t.shard && tick == t.next;
            && b'.nextId == b.nextId + 1
            && (Present(b', d, shard, tick) <==> Present(b, d, shard, tick) || mine)
            && (Present(b', d, shard, tick) ==>
                PulseRow(b', d, shard, tick).id == if Present(b, d, shard, tick) then PulseRow(b, d, shard, tick).id else b.nextId)
            && EntryOk(s', d, shard, tick)
  {
    var t, s' := s.tasks[i], StepPulse(s, i, destination, envelope);
    assert TaskOk(s, t, 0) && EntryOk(s, d, shard, tick);
    assert EmissionKey(t.lease.key, StableId(t.shard, t.next)) == PulseKey(t.lease.key.deployment, t.shard, t.next);
    if PulseKey(d, shard, tick) == PulseKey(t.lease.key.deployment, t.shard, t.next) {
      PulseKeysAreDistinct(d, shard, tick, t.lease.key.deployment, t.shard, t.next);
    }
    assert s'.accepted[..|s'.accepted| - 1] == s.accepted;
  }

  lemma LogInvEmit(s: System, i: nat, destination: string, envelope: string)
    requires LogInv(s) && i < |s.tasks|
    requires s.tasks[i].running && s.tasks[i].next < s.pulses && Accepts(s.store, s.tasks[i].lease)
    ensures LogInv(StepPulse(s, i, destination, envelope))
  {
    var t, s' := s.tasks[i], StepPulse(s, i, destination, envelope);
    forall d, shard, tick ensures EntryOk(s', d, shard, tick) {
      EmitChangesOneEntry(s, i, destination, envelope, d, shard, tick);
    }
    forall d, shard, earlier, tick ensures EarlierOk(s'.store.box, d, shard, earlier, tick) {
      assert EarlierOk(s.store.box, d, shard, earlier, tick) && EntryOk(s, d, shard, earlier) && TaskOk(s, t, earlier);
      EmitChangesOneEntry(s, i, destination, envelope, d, shard, tick);
      EmitChangesOneEntry(s, i, destination, envelope, d, shard, earlier);
    }
    forall j, tick | 0 <= j < |s'.tasks| ensures TaskOk(s', s'.tasks[j], tick) {
      assert TaskOk(s, s.tasks[j], tick);
      EmitChangesOneEntry(s, i, destination, envelope, s.tasks[j].lease.key.deployment, s.tasks[j].shard, tick);
    }
  }

  lemma LogInvStep(s: System, e: PulseEvent)
    requires LogInv(s)
    ensures LogInv(Step(s, e)) && Step(s, e).pulses == s.pulses
  {
    var s' := Step(s, e);
    if e.Outside? && !e.event.Emit? {
      LogInvOutside(s, e.event);
    } else if e.Pulse? && e.task < |s.tasks| && s.tasks[e.task].running && s.tasks[e.task].next < s.pulses && Accepts(s.store, s.tasks[e.task].lease) {
      LogInvEmit(s, e.task, e.destination, e.envelope);
    } else {
      assert s'.store == s.store && s'.accepted == s.accepted;
      forall d, shard, tick ensures EntryOk(s', d, shard, tick) {
        assert EntryOk(s, d, shard, tick);
      }
      forall j, tick | 0 <= j < |s'.tasks| ensures TaskOk(s', s'.tasks[j], tick) {
        assert j < |s.tasks| ==> TaskOk(s, s.tasks[j], tick);
      }
    }
  }

  lemma {:induction false} ReachableLog(pulses: nat, es: seq<PulseEvent>)
    ensures LogInv(Run(Begin(pulses), es)) && Run(Begin(pulses), es).pulses == pulses
  {
    if es != [] {
      ReachableLog(pulses, es[..|es| - 1]);
      LogInvStep(Run(Begin(pulses), es[..|es| - 1]), es[|es| - 1]);
    }
  }

  /** How many ticks the log of a shard holds. */
  function Extent(b: Box, d: DeploymentId, shard: nat, pulses: nat): (k: nat)
    ensures k <= pulses
  {
    if pulses == 0 then 0 else if Present(b, d, shard, pulses - 1) then pulses else Extent(b, d, shard, pulses - 1)
  }

  lemma {:induction false} ExtentIsTheBound(b: Box, d: DeploymentId, shard: nat, pulses: nat, tick: nat)
    requires forall e, t :: EarlierOk(b, d, shard, e, t)
    requires forall t :: t >= pulses ==> !Present(b, d, shard, t)
    ensures Present(b, d, shard, tick) <==> tick < Extent(b, d, shard, pulses)
  {
    if pulses > 0 {
      if Present(b, d, shard, pulses - 1) {
        assert EarlierOk(b, d, shard, tick, pulses - 1);
      } else {
        ExtentIsTheBound(b, d, shard, pulses - 1, tick);
      }
    }
  }

  predicate EntryInOrder(b: Box, d: DeploymentId, shard: nat, t: nat, u: nat) {
    Present(b, d, shard, t) && Present(b, d, shard, u) && PulseRow(b, d, shard, t).id < PulseRow(b, d, shard, u).id
  }

  predicate EntryFenced(s: System, d: DeploymentId, shard: nat, t: nat) {
    && Present(s.store.box, d, shard, t)
    && MaxToken(s.accepted, d, shard, t).Some?
    && PulseRow(s.store.box, d, shard, t).fencingToken == MaxToken(s.accepted, d, shard, t)
    && FirstAccepted(s.accepted, d, shard, t).Some? && SaysWhat(s.store.box, FirstAccepted(s.accepted, d, shard, t), d, shard, t)
  }

  predicate Completed(s: System, d: DeploymentId, shard: nat) {
    exists i :: 0 <= i < |s.tasks| && s.tasks[i].lease.key.deployment == d && s.tasks[i].shard == shard && s.tasks[i].next == s.pulses
  }

  /**
   The emission log of a shard is takeover-safe. After any interleaving of owners, restarts, takeovers, stale
   tasks, releases, expiries and drains its rows are exactly the ticks 0 .. k-1 for some k <= pulses, one row a
   tick, with ids that grow with the tick; each row says what the first accepted emission of its tick said, and carries the
   largest token any of them had.
   A task that finished its loop, under whatever lease, proves the log complete.
   */
  lemma EmissionLogIsTakeoverSafe(pulses: nat, es: seq<PulseEvent>, d: DeploymentId, shard: nat)
    ensures var s := Run(Begin(pulses), es);
            var k := Extent(s.store.box, d, shard, pulses);
            && (forall t: nat :: Present(s.store.box, d, shard, t) <==> t < k)
            && (forall t: nat, u: nat :: t < u < k ==> EntryInOrder(s.store.box, d, shard, t, u))
            && (forall t: nat :: t < k ==> EntryFenced(s, d, shard, t))
            && (Completed(s, d, shard) ==> k == pulses)
  {
    ReachableLog(pulses, es);
    var s := Run(Begin(pulses), es);
    var b := s.store.box;
    forall t: nat | t >= pulses ensures !Present(b, d, shard, t) {
      assert EntryOk(s, d, shard, t);
    }
    forall t: nat ensures Present(b, d, shard, t) <==> t < Extent(b, d, shard, pulses) {
      ExtentIsTheBound(b, d, shard, pulses, t);
    }
    forall t: nat, u: nat | t < u < Extent(b, d, shard, pulses) ensures EntryInOrder(b, d, shard, t, u) {
      assert EarlierOk(b, d, shard, t, u);
    }
    forall t: nat | t < Extent(b, d, shard, pulses) ensures EntryFenced(s, d, shard, t) {
      assert EntryOk(s, d, shard, t);
    }
    if Completed(s, d, shard) && pulses > 0 {
      var i :| 0 <= i < |s.tasks| && s.tasks[i].lease.key.deployment == d && s.tasks[i].shard == shard && s.tasks[i].next == s.pulses;
      assert TaskOk(s, s.tasks[i], pulses - 1);
    }
  }

  /** Accepted emissions of a partition carry tokens up to its row's token, in the order they were accepted. */
  ghost predicate FenceInv(s: System) {
    && (forall i :: 0 <= i < |s.accepted| ==>
        PartitionOf(s.accepted[i]) in s.store.rows && s.accepted[i].token <= s.store.rows[PartitionOf(s.accepted[i])].token)
    && (forall i, j :: 0 <= i < j < |s.accepted| && PartitionOf(s.accepted[i]) == PartitionOf(s.accepted[j]) ==>
        s.accepted[i].token <= s.accepted[j].token)
  }

  function PartitionOf(e: Emission): Key {
    Key(e.deployment, ShardId(e.shard))
  }

  lemma FenceInvStep(s: System, e: PulseEvent)
    requires LogInv(s) && FenceInv(s)
    ensures FenceInv(Step(s, e))
  {
    if e.Outside? {
      Leases.StepMovesRows(s.store, e.event);
    } else if e.Pulse? && e.task < |s.tasks| {
      assert TaskOk(s, s.tasks[e.task], 0);
    }
  }

  lemma {:induction false} ReachableFence(pulses: nat, es: seq<PulseEvent>)
    ensures FenceInv(Run(Begin(pulses), es))
  {
    if es != [] {
      ReachableFence(pulses, es[..|es| - 1]);
      ReachableLog(pulses, es[..|es| - 1]);
      FenceInvStep(Run(Begin(pulses), es[..|es| - 1]), es[|es| - 1]);
    }
  }

  /** Once a newer owner emitted for a shard, no emission under an older token is ever accepted again. */
  lemma StaleOwnersNeverEmitLater(pulses: nat, es: seq<PulseEvent>, i: nat, j: nat)
    requires i < j < |Run(Begin(pulses), es).accepted|
    requires var a := Run(Begin(pulses), es).accepted; a[i].deployment == a[j].deployment && a[i].shard == a[j].shard
    ensures var a := Run(Begin(pulses), es).accepted; a[i].token <= a[j].token
  {
    ReachableFence(pulses, es);
    var a := Run(Begin(pulses), es).accepted;
    assert PartitionOf(a[i]) == PartitionOf(a[j]);
  }
}
