/** run_partition itself (shard_pulse.py): the loop that emits the ticks of a shard one by one. */
module PulseLoop {
  import opened Wrappers
  import opened Outbox
  import opened ContinuousTables
  import opened PulseKeys
  import opened ShardPulse
  import ContinuousStore
  import Text

  /** The box after a task emitted its first `n` ticks. */
  function EmitTicks(b: Box, h: LeaseHandle, shard: nat, n: nat, envelope: nat -> string): Box {
    if n == 0 then b
    else InsertRow(EmitTicks(b, h, shard, n - 1, envelope), EmissionKey(h.key, StableId(shard, n - 1)), "pulses", envelope(n - 1), Some(h.token))
  }

  /** The key a tick's message is stored under. */
  function TickKey(k: Key, shard: nat, t: nat): MessageKey {
    MessageKey("emission", k.deployment + ":" + k.partition + ":" + ("shard:" + Text.Decimal(shard) + ":" + Text.Decimal(t)))
  }

  /** A tick has its message: a pending one under the next id, or the one it had, which keeps all but the newer token. */
  predicate TickTaken(b: Box, b': Box, h: LeaseHandle, shard: nat, t: nat, envelope: nat -> string) {
    var m := TickKey(h.key, shard, t);
    && m in b'.rows
    && (if m in b.rows then
          && b'.rows[m] == b.rows[m].(fencingToken := b'.rows[m].fencingToken)
          && b'.rows[m].fencingToken == (if b.rows[m].fencingToken.Some? && b.rows[m].fencingToken.value > h.token then b.rows[m].fencingToken
                                         else Some(h.token))
        else b'.rows[m] == Message(b.nextId + t, "pulses", envelope(t), Some(h.token), Pending, 0))
  }

  predicate IsTick(m: MessageKey, k: Key, shard: nat, n: nat) {
    exists t: nat :: t < n && m == TickKey(k, shard, t)
  }

  /** The first `n` ticks are taken, and no other message has come, gone or changed. */
  ghost predicate TicksTaken(b: Box, b': Box, h: LeaseHandle, shard: nat, n: nat, envelope: nat -> string) {
    && (forall t: nat :: t < n ==> TickTaken(b, b', h, shard, t, envelope)) && b'.nextId == b.nextId + n
    && (forall m :: !IsTick(m, h.key, shard, n) ==>
        (m in b'.rows <==> m in b.rows) && (m in b.rows ==> b'.rows[m] == b.rows[m]))
  }

  lemma TickKeysAre(k: Key, shard: nat, t: nat)
    ensures EmissionKey(k, StableId(shard, t)) == TickKey(k, shard, t)
  {
    assert "shard:" == "shard" + [':'];
  }

  lemma TickKeysAreDistinct(k: Key, shard: nat, s: nat, t: nat)
    requires TickKey(k, shard, s) == TickKey(k, shard, t)
    ensures s == t
  {
    var front := k.deployment + ":" + k.partition + ":" + ("shard:" + Text.Decimal(shard));
    assert TickKey(k, shard, s).dedupKey == front + [':'] + Text.Decimal(s);
    assert TickKey(k, shard, t).dedupKey == front + [':'] + Text.Decimal(t);
    Text.SplitAtLastSeparator(front, front, Text.Decimal(s), Text.Decimal(t), ':');
    Text.DecimalIsInjective(s, t);
  }

  lemma {:induction false} EmittedTicksAreTaken(b: Box, h: LeaseHandle, shard: nat, n: nat, envelope: nat -> string)
    ensures TicksTaken(b, EmitTicks(b, h, shard, n, envelope), h, shard, n, envelope)
  {
    if n > 0 {
      EmittedTicksAreTaken(b, h, shard, n - 1, envelope);
      TickKeysAre(h.key, shard, n - 1);
      NextTickIsTaken(b, EmitTicks(b, h, shard, n - 1, envelope), h, shard, n - 1, envelope);
    }
  }

  lemma {:induction false} NextTickIsTaken(b: Box, mid: Box, h: LeaseHandle, shard: nat, n: nat, envelope: nat -> string)
    requires TicksTaken(b, mid, h, shard, n, envelope)
    ensures TicksTaken(b, InsertRow(mid, TickKey(h.key, shard, n), "pulses", envelope(n), Some(h.token)), h, shard, n + 1, envelope)
  {
    var b' := InsertRow(mid, TickKey(h.key, shard, n), "pulses", envelope(n), Some(h.token));
    LastTickIsNew(h.key, shard, n);
    forall t: nat | t < n ensures TickTaken(b, b', h, shard, t, envelope) {
      assert IsTick(TickKey(h.key, shard, t), h.key, shard, n);
      SameTick(b, mid, b', h, shard, t, envelope);
    }
    LastTickIsTaken(b, mid, h, shard, n, envelope);
    forall m | !IsTick(m, h.key, shard, n + 1)
      ensures (m in b'.rows <==> m in b.rows) && (m in b.rows ==> b'.rows[m] == b.rows[m])
    {
      assert !IsTick(m, h.key, shard, n) && m != TickKey(h.key, shard, n);
    }
  }

  lemma SameTick(b: Box, mid: Box, b': Box, h: LeaseHandle, shard: nat, t: nat, envelope: nat -> string)
    requires TickTaken(b, mid, h, shard, t, envelope)
    requires var m := TickKey(h.key, shard, t); m in b'.rows && b'.rows[m] == mid.rows[m]
    ensures TickTaken(b, b', h, shard, t, envelope)
  {
  }

  lemma {:induction false} LastTickIsTaken(b: Box, mid: Box, h: LeaseHandle, shard: nat, n: nat, envelope: nat -> string)
    requires mid.nextId == b.nextId + n
    requires var m := TickKey(h.key, shard, n); (m in mid.rows <==> m in b.rows) && (m in b.rows ==> mid.rows[m] == b.rows[m])
    ensures TickTaken(b, InsertRow(mid, TickKey(h.key, shard, n), "pulses", envelope(n), Some(h.token)), h, shard, n, envelope)
  {
  }

  lemma LastTickIsNew(k: Key, shard: nat, n: nat)
    ensures !IsTick(TickKey(k, shard, n), k, shard, n)
    ensures forall m :: IsTick(m, k, shard, n + 1) <==> IsTick(m, k, shard, n) || m == TickKey(k, shard, n)
  {
    forall t: nat | t < n ensures TickKey(k, shard, t) != TickKey(k, shard, n) {
      if TickKey(k, shard, t) == TickKey(k, shard, n) {
        TickKeysAreDistinct(k, shard, t, n);
      }
    }
  }

  datatype LoopEnd = Finished | WasCancelled | WasRejected

  /** The lease of the handle is the row's, and has not run out at this time. */
  predicate HeldAt(rows: map<Key, Row>, now: int, h: LeaseHandle) {
    && h.key in rows && rows[h.key].owner == Some(h.owner) && rows[h.key].token == h.token
    && rows[h.key].leaseExpiresAt.Some? && now < rows[h.key].leaseExpiresAt.value
  }

  /**
   run_partition without interference between two emissions: it emits the ticks in order up to the first one
   that finds its context cancelled or its lease refused, and writes nothing for that tick.
   */
  method RunPartition(store: ContinuousStore.ContinuousStateStore, h: LeaseHandle, shard: nat, pulses: nat,
                      clock: nat -> int, cancelled: nat -> bool, envelope: nat -> string)
    returns (emitted: nat, end: LoopEnd)
    modifies store
    ensures emitted <= pulses
    ensures store.At(0) == old(store.At(0)).(box := EmitTicks(old(store.box), h, shard, emitted, envelope))
    ensures store.rows == old(store.rows) && TicksTaken(old(store.box), store.box, h, shard, emitted, envelope)
    ensures forall t: nat :: t < emitted ==> !cancelled(t) && HeldAt(old(store.rows), clock(t), h)
    ensures end.WasRejected? ==> !HeldAt(old(store.rows), clock(emitted), h)
    ensures end == if emitted == pulses then Finished else if cancelled(emitted) then WasCancelled else WasRejected
  {
    ghost var start := store.At(0);
    emitted := 0;
    while emitted < pulses
      invariant emitted <= pulses
      invariant store.At(0) == start.(box := EmitTicks(start.box, h, shard, emitted, envelope))
      invariant forall t: nat :: t < emitted ==> !cancelled(t) && HeldAt(start.rows, clock(t), h)
    {
      if cancelled(emitted) {
        EmittedTicksAreTaken(start.box, h, shard, emitted, envelope);
        return emitted, WasCancelled;
      }
      var id := store.Emit(clock(emitted), h, "pulses", StableId(shard, emitted), envelope(emitted));
      if id.None? {
        EmittedTicksAreTaken(start.box, h, shard, emitted, envelope);
        return emitted, WasRejected;
      }
      emitted := emitted + 1;
    }
    EmittedTicksAreTaken(start.box, h, shard, emitted, envelope);
    end := Finished;
  }

  /** The turns of task `i` for its first `n` ticks. */
  function Turns(i: nat, n: nat, envelope: nat -> string): (es: seq<PulseEvent>)
    ensures |es| == n
  {
    if n == 0 then [] else Turns(i, n - 1, envelope) + [Pulse(i, "pulses", envelope(n - 1))]
  }

  /** Where the loop is after `n` ticks. */
  ghost predicate Looped(s: System, s': System, i: nat, n: nat, envelope: nat -> string)
    requires i < |s.tasks|
  {
    var t := s.tasks[i];
    && s'.store == s.store.(box := EmitTicks(s.store.box, t.lease, t.shard, n, envelope))
    && s'.tasks == s.tasks[i := t.(next := n)] && s'.pulses == s.pulses
  }

  lemma LoopedOnce(s: System, s': System, i: nat, n: nat, envelope: nat -> string)
    requires i < |s.tasks| && s.tasks[i].running && n < s.pulses && Accepts(s.store, s.tasks[i].lease)
    requires Looped(s, s', i, n, envelope)
    ensures Looped(s, ShardPulse.Step(s', Pulse(i, "pulses", envelope(n))), i, n + 1, envelope)
  {
  }

  /** The loop is a run of the step system, so what holds of every run holds of it. */
  lemma {:induction false} LoopIsARun(s: System, i: nat, n: nat, envelope: nat -> string)
    requires i < |s.tasks| && s.tasks[i].running && s.tasks[i].next == 0 && n <= s.pulses
    requires Accepts(s.store, s.tasks[i].lease)
    ensures Looped(s, ShardPulse.Run(s, Turns(i, n, envelope)), i, n, envelope)
  {
    if n > 0 {
      LoopIsARun(s, i, n - 1, envelope);
      assert Turns(i, n, envelope)[..n - 1] == Turns(i, n - 1, envelope);
      LoopedOnce(s, ShardPulse.Run(s, Turns(i, n - 1, envelope)), i, n - 1, envelope);
    }
  }

  /**
   A redelivered partition: whoever runs the loop again, under whatever lease of the partition, adds no row and
   changes no id and no envelope of the ticks that are there.
   */
  lemma {:induction false} ReplayAddsNothing(b: Box, h: LeaseHandle, shard: nat, n: nat, envelope: nat -> string)
    requires h.key.partition == ShardId(shard)
    requires forall t: nat :: t < n ==> Present(b, h.key.deployment, shard, t)
    ensures var b' := EmitTicks(b, h, shard, n, envelope);
            && b'.rows.Keys == b.rows.Keys
            && forall k :: k in b.rows ==> b'.rows[k] == b.rows[k].(fencingToken := b'.rows[k].fencingToken)
  {
    if n > 0 {
      ReplayAddsNothing(b, h, shard, n - 1, envelope);
      assert Present(b, h.key.deployment, shard, n - 1);
    }
  }
}
