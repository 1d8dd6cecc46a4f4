/**
 The continuous supervisor (worker/continuous.py): one tick reaps tasks whose partition moved or that finished,
 starts a task for every other row this instance owns, and renews the leases it tracks. Its log keeps the order in
 which tasks were stopped and started.
 */
module Supervision {
  import opened Wrappers
  import opened ContinuousTables
  import opened Leases
  import opened Scheduling
  import ContinuousStore

  /** A started run_partition task; `id` tells two starts of the same partition apart. */
  datatype Tracked = Tracked(partition: PartitionId, lease: LeaseHandle, id: nat)

  datatype Action = Cancelled(id: nat, reason: string) | Started(task: Tracked)

  /** What a tick can raise before it reads the partitions. */
  datatype TickError = UnknownDeployment | UnknownWorkload | NotContinuous

  predicate Mine(x: Stored, instance: InstanceId) {
    x.row.owner == Some(instance) && x.row.token > 0
  }

  predicate TracksPartition(ts: seq<Tracked>, p: PartitionId) {
    exists i :: 0 <= i < |ts| && ts[i].partition == p
  }

  /** The snapshot still backs a tracked task: its row is owned here under its own token. */
  predicate Backed(t: Tracked, xs: seq<Stored>, instance: InstanceId) {
    exists i :: 0 <= i < |xs| && xs[i].id == t.partition && Mine(xs[i], instance) && xs[i].row.token == t.lease.token
  }

  function Reap(ts: seq<Tracked>, xs: seq<Stored>, instance: InstanceId, done: set<nat>): seq<Tracked> {
    if ts == [] then []
    else
      var n := |ts| - 1;
      Reap(ts[..n], xs, instance, done) + if Backed(ts[n], xs, instance) && ts[n].id !in done then [ts[n]] else []
  }

  /** The log entries of the tasks a reap stops; finished ones need no stopping. */
  function Stops(ts: seq<Tracked>, xs: seq<Stored>, instance: InstanceId, done: set<nat>): seq<Action> {
    if ts == [] then []
    else
      var n := |ts| - 1;
      Stops(ts[..n], xs, instance, done) +
      if !Backed(ts[n], xs, instance) && ts[n].id !in done then [Cancelled(ts[n].id, "ownership lost")] else []
  }

  lemma ReapOneMore(earlier: seq<Action>, log: seq<Action>, ts: seq<Tracked>, n: nat, xs: seq<Stored>,
                    instance: InstanceId, done: set<nat>)
    requires n < |ts| && log == earlier + Stops(ts[..n], xs, instance, done)
    ensures Reap(ts[..n + 1], xs, instance, done) ==
            Reap(ts[..n], xs, instance, done) + if Backed(ts[n], xs, instance) && ts[n].id !in done then [ts[n]] else []
    ensures earlier + Stops(ts[..n + 1], xs, instance, done) ==
            log + if !Backed(ts[n], xs, instance) && ts[n].id !in done then [Cancelled(ts[n].id, "ownership lost")] else []
  {
    assert ts[..n + 1][..n] == ts[..n];
  }

  lemma {:induction false} StopsCover(ts: seq<Tracked>, xs: seq<Stored>, instance: InstanceId, done: set<nat>)
    ensures forall i :: 0 <= i < |Stops(ts, xs, instance, done)| ==> Stops(ts, xs, instance, done)[i].Cancelled?
    ensures forall t :: t in ts && !Backed(t, xs, instance) && t.id !in done ==>
              Cancelled(t.id, "ownership lost") in Stops(ts, xs, instance, done)
  {
    if ts != [] {
      StopsCover(ts[..|ts| - 1], xs, instance, done);
    }
  }

  /** One task a partition, each with a lease of its own partition and instance. */
  ghost predicate TrackedInv(ts: seq<Tracked>, d: DeploymentId, instance: InstanceId, nextId: nat) {
    && (forall i, j :: 0 <= i < j < |ts| ==> ts[i].partition != ts[j].partition && ts[i].id != ts[j].id)
    && (forall t :: t in ts ==> t.lease.key == Key(d, t.partition) && t.lease.owner == instance && t.id < nextId)
  }

  lemma {:induction false} ReapedAreBacked(ts: seq<Tracked>, xs: seq<Stored>, instance: InstanceId, done: set<nat>)
    ensures forall t :: t in Reap(ts, xs, instance, done) <==> t in ts && Backed(t, xs, instance) && t.id !in done
  {
    if ts != [] {
      ReapedAreBacked(ts[..|ts| - 1], xs, instance, done);
    }
  }

  lemma {:induction false} ReapKeepsInv(ts: seq<Tracked>, xs: seq<Stored>, d: DeploymentId, instance: InstanceId,
                                        done: set<nat>, nextId: nat)
    requires TrackedInv(ts, d, instance, nextId)
    ensures TrackedInv(Reap(ts, xs, instance, done), d, instance, nextId)
  {
    if ts != [] {
      ReapKeepsInv(ts[..|ts| - 1], xs, d, instance, done, nextId);
      ReapedAreBacked(ts[..|ts| - 1], xs, instance, done);
    }
  }

  predicate HoldsKey(ts: seq<Tracked>, k: Key) {
    exists i :: 0 <= i < |ts| && ts[i].lease.key == k
  }

  /** Some task of the partition was started no earlier than start `first`. */
  predicate StartedSince(ts: seq<Tracked>, k: Key, first: nat) {
    exists i :: 0 <= i < |ts| && ts[i].lease.key == k && ts[i].id >= first
  }

  ghost predicate AllBacked(ts: seq<Tracked>, xs: seq<Stored>, instance: InstanceId) {
    forall t :: t in ts ==> Backed(t, xs, instance)
  }

  /** The tasks agree with the snapshot up to a row: one for each row owned here, under that row's token. */
  ghost predicate Agrees(ts: seq<Tracked>, xs: seq<Stored>, instance: InstanceId, upTo: nat) {
    && AllBacked(ts, xs, instance)
    && (forall i :: 0 <= i < upTo <= |xs| && Mine(xs[i], instance) ==> TracksPartition(ts, xs[i].id))
  }

  /** A started task reports its row as running; any other row stays. */
  ghost predicate Reported(rows: map<Key, Row>, rows': map<Key, Row>, ts: seq<Tracked>) {
    && rows'.Keys == rows.Keys
    && forall k :: k in rows ==> rows'[k] == if HoldsKey(ts, k) then rows[k].(status := Running) else rows[k]
  }

  /** A tracked lease that has not run out is extended; any other row stays. */
  ghost predicate Renewed(rows: map<Key, Row>, rows': map<Key, Row>, ts: seq<Tracked>, now: int, seconds: int) {
    && rows'.Keys == rows.Keys
    && forall k :: k in rows ==>
        rows'[k] == if HoldsKey(ts, k) && Unexpired(rows[k], now) then rows[k].(leaseExpiresAt := Some(now + seconds)) else rows[k]
  }

  /** The log entries of the renewals that the store refused. */
  function Rejections(ts: seq<Tracked>, rows: map<Key, Row>, now: int): seq<Action> {
    if ts == [] then []
    else Rejections(ts[..|ts| - 1], rows, now) + Rejection(ts[|ts| - 1], rows, now)
  }

  function Rejection(t: Tracked, rows: map<Key, Row>, now: int): seq<Action> {
    if t.lease.key in rows && Unexpired(rows[t.lease.key], now) then [] else [Cancelled(t.id, "lease renewal rejected")]
  }

  function Starts(ts: seq<Tracked>): (log: seq<Action>)
    ensures |log| == |ts| && forall i :: 0 <= i < |ts| ==> log[i] == Started(ts[i])
  {
    if ts == [] then [] else Starts(ts[..|ts| - 1]) + [Started(ts[|ts| - 1])]
  }

  /** The transactions a supervisor commits: it reports its own leases as running and renews them. */
  ghost predicate OnlyOwnLeases(es: seq<Event>, instance: InstanceId) {
    forall i :: 0 <= i < |es| ==>
      || (es[i].SetStatus? && es[i].status.Running? && es[i].lease.owner == instance)
      || (es[i].Renew? && es[i].lease.owner == instance)
  }

  /** A task stopped, or was told to stop, before its partition was started again. */
  ghost predicate CancelledFirst(log: seq<Action>, start: nat, before: seq<Tracked>, done: set<nat>) {
    forall i, t :: start <= i < |log| && log[i].Started? && t in before && t.partition == log[i].task.partition ==>
      t.id in done || Cancelled(t.id, "ownership lost") in log[start..i]
  }

  /** A tracked task and the row that backs it. */
  predicate Tracks(t: Tracked, rows: map<Key, Row>, d: DeploymentId, instance: InstanceId) {
    var k := Key(d, t.partition);
    && k in rows && rows[k].owner == Some(instance) && rows[k].token > 0
    && t.lease == LeaseHandle(k, instance, rows[k].token)
  }

  predicate OwnedHere(rows: map<Key, Row>, k: Key, d: DeploymentId, instance: InstanceId) {
    k in rows && k.deployment == d && rows[k].owner == Some(instance) && rows[k].token > 0
  }

  /** The task map and the rows agree, both ways. */
  ghost predicate InStep(ts: seq<Tracked>, rows: map<Key, Row>, d: DeploymentId, instance: InstanceId) {
    && (forall t :: t in ts ==> Tracks(t, rows, d, instance))
    && (forall k :: OwnedHere(rows, k, d, instance) ==> HoldsKey(ts, k))
  }

  /** What a tick does to a row: own rows are renewed unless expired and reported running if just started. */
  function TickedRow(row: Row, own: bool, started: bool, now: int, seconds: int): Row {
    if !own then row
    else row.(status := if started then Running else row.status,
              leaseExpiresAt := if row.leaseExpiresAt.Some? && row.leaseExpiresAt.value > now then Some(now + seconds) else row.leaseExpiresAt)
  }

  lemma AgreesInStep(s: Store, d: DeploymentId, xs: seq<Stored>, ts: seq<Tracked>, instance: InstanceId, nextId: nat)
    requires FullSnapshot(s, d, xs) && TrackedInv(ts, d, instance, nextId) && Agrees(ts, xs, instance, |xs|)
    ensures InStep(ts, s.rows, d, instance)
  {
    forall t | t in ts ensures Tracks(t, s.rows, d, instance) {
    }
    forall k | OwnedHere(s.rows, k, d, instance) ensures HoldsKey(ts, k) {
      assert Listed(d, xs, k);
      var i :| 0 <= i < |xs| && xs[i].id == k.partition;
      assert k == Key(d, xs[i].id) && TracksPartition(ts, xs[i].id);
      var j :| 0 <= j < |ts| && ts[j].partition == xs[i].id;
      assert ts[j] in ts;
    }
  }

  lemma ExtendRun(s: Store, es: seq<Event>, e: Event, instance: InstanceId)
    requires OnlyOwnLeases(es, instance)
    requires ((e.SetStatus? && e.status.Running?) || e.Renew?) && e.lease.owner == instance
    ensures Run(s, es + [e]) == Step(Run(s, es), e) && OnlyOwnLeases(es + [e], instance)
  {
    assert (es + [e])[..|es|] == es;
  }

  /** Progress of the start loop after `n` rows: the tasks, their log entries and their reports so far. */
  ghost predicate Starting(rows: map<Key, Row>, rows': map<Key, Row>, before: seq<Tracked>, ts: seq<Tracked>,
                           xs: seq<Stored>, instance: InstanceId, first: nat, nextId: nat, n: nat) {
    && Agrees(ts, xs, instance, n) && first <= nextId
    && before <= ts && (forall t :: t in ts[|before|..] ==> t.id >= first)
    && Reported(rows, rows', ts[|before|..])
  }

  lemma AgreesOnOneMore(ts: seq<Tracked>, ts': seq<Tracked>, xs: seq<Stored>, instance: InstanceId, n: nat)
    requires Agrees(ts, xs, instance, n) && n < |xs| && ts <= ts' && AllBacked(ts', xs, instance)
    requires Mine(xs[n], instance) ==> TracksPartition(ts', xs[n].id)
    ensures Agrees(ts', xs, instance, n + 1)
  {
    forall i | 0 <= i < n + 1 && Mine(xs[i], instance) ensures TracksPartition(ts', xs[i].id) {
      if i < n {
        var j :| 0 <= j < |ts| && ts[j].partition == xs[i].id;
        assert ts'[j] == ts[j];
      }
    }
  }

  /** Starting a task for an owned row nobody tracks, and reporting it. */
  lemma StartedTask(rows: map<Key, Row>, rows': map<Key, Row>, before: seq<Tracked>, ts: seq<Tracked>,
                    xs: seq<Stored>, d: DeploymentId, instance: InstanceId, first: nat, nextId: nat, n: nat,
                    t: Tracked)
    requires TrackedInv(ts, d, instance, nextId) && Starting(rows, rows', before, ts, xs, instance, first, nextId, n)
    requires n < |xs| && Mine(xs[n], instance) && !TracksPartition(ts, xs[n].id)
    requires t == Tracked(xs[n].id, LeaseHandle(Key(d, xs[n].id), instance, xs[n].row.token), nextId)
    requires t.lease.key in rows
    ensures rows'[t.lease.key] == rows[t.lease.key]
    ensures TrackedInv(ts + [t], d, instance, nextId + 1)
    ensures (ts + [t])[|before|..] == ts[|before|..] + [t]
    ensures var rows2 := rows'[t.lease.key := rows'[t.lease.key].(status := Running)];
            Starting(rows, rows2, before, ts + [t], xs, instance, first, nextId + 1, n + 1)
  {
    var k, us := t.lease.key, ts[|before|..];
    assert !HoldsKey(us, k) by {
      forall i | 0 <= i < |us| ensures us[i].lease.key != k {
        assert us[i] == ts[|before| + i] && ts[|before| + i] in ts;
      }
    }
    assert (ts + [t])[|ts|] == t;
    assert (ts + [t])[|before|..] == us + [t];
    assert Backed(t, xs, instance);
    AgreesOnOneMore(ts, ts + [t], xs, instance, n);
    ReportedOneMore(rows, rows', us, t);
  }

  lemma HoldsOneMore(ts: seq<Tracked>, t: Tracked, k: Key)
    ensures HoldsKey(ts + [t], k) <==> HoldsKey(ts, k) || t.lease.key == k
  {
    if HoldsKey(ts, k) {
      var i :| 0 <= i < |ts| && ts[i].lease.key == k;
      assert (ts + [t])[i] == ts[i];
    }
    assert (ts + [t])[|ts|] == t;
  }

  lemma ReportedOneMore(rows: map<Key, Row>, rows': map<Key, Row>, ts: seq<Tracked>, t: Tracked)
    requires Reported(rows, rows', ts) && t.lease.key in rows'
    ensures Reported(rows, rows'[t.lease.key := rows'[t.lease.key].(status := Running)], ts + [t])
  {
    forall k { HoldsOneMore(ts, t, k); }
  }

  lemma RenewedOneMore(rows: map<Key, Row>, rows': map<Key, Row>, ts: seq<Tracked>, t: Tracked, now: int, seconds: int)
    requires Renewed(rows, rows', ts, now, seconds) && t.lease.key in rows && !HoldsKey(ts, t.lease.key)
    ensures rows'[t.lease.key] == rows[t.lease.key]
    ensures var rows2 := if Unexpired(rows[t.lease.key], now)
                         then rows'[t.lease.key := rows'[t.lease.key].(leaseExpiresAt := Some(now + seconds))] else rows';
            Renewed(rows, rows2, ts + [t], now, seconds)
  {
    forall k { HoldsOneMore(ts, t, k); }
  }

  lemma NotHeldBefore(ts: seq<Tracked>, d: DeploymentId, instance: InstanceId, nextId: nat, n: nat)
    requires TrackedInv(ts, d, instance, nextId) && n < |ts|
    ensures !HoldsKey(ts[..n], ts[n].lease.key)
    ensures ts[..n + 1] == ts[..n] + [ts[n]]
  {
    forall i | 0 <= i < n ensures ts[..n][i].lease.key != ts[n].lease.key {
      assert ts[i] in ts && ts[n] in ts;
    }
  }

  lemma RejectionsOneMore(earlier: seq<Action>, log: seq<Action>, ts: seq<Tracked>, t: Tracked, rows: map<Key, Row>,
                          now: int)
    requires log == earlier + Rejections(ts, rows, now)
    ensures log + Rejection(t, rows, now) == earlier + Rejections(ts + [t], rows, now)
  {
    assert (ts + [t])[..|ts|] == ts;
  }

  lemma StartsOneMore(earlier: seq<Action>, log: seq<Action>, ts: seq<Tracked>, t: Tracked)
    requires log == earlier + Starts(ts)
    ensures log + [Started(t)] == earlier + Starts(ts + [t])
  {
    assert (ts + [t])[..|ts|] == ts;
  }

  lemma StillMatched(rows: map<Key, Row>, rows': map<Key, Row>, ts: seq<Tracked>, started: seq<Tracked>,
                     d: DeploymentId, instance: InstanceId)
    requires InStep(ts, rows, d, instance) && Reported(rows, rows', started)
    ensures forall t :: t in ts ==> Matches(rows', t.lease)
  {
    forall t | t in ts ensures Matches(rows', t.lease) {
      assert Tracks(t, rows, d, instance);
    }
  }

  lemma {:induction false} RunAppends(s: Store, es: seq<Event>, fs: seq<Event>, instance: InstanceId)
    requires OnlyOwnLeases(es, instance) && OnlyOwnLeases(fs, instance)
    ensures Run(s, es + fs) == Run(Run(s, es), fs) && OnlyOwnLeases(es + fs, instance)
  {
    if fs == [] {
      assert es + fs == es;
    } else {
      var n := |fs| - 1;
      RunAppends(s, es, fs[..n], instance);
      assert (es + fs)[..|es| + n] == es + fs[..n];
    }
  }

  lemma {:induction false} OwnLeasesKeepRows(s: Store, es: seq<Event>, instance: InstanceId)
    requires RowInv(s) && OnlyOwnLeases(es, instance)
    ensures RowInv(Run(s, es))
  {
    if es != [] {
      var n := |es| - 1;
      assert OnlyOwnLeases(es[..n], instance);
      OwnLeasesKeepRows(s, es[..n], instance);
      CoherenceStep(Run(s, es[..n]), es[n]);
    }
  }

  /** Each row of the table after a tick. */
  ghost predicate Ticked(rows: map<Key, Row>, rows': map<Key, Row>, ts: seq<Tracked>, d: DeploymentId,
                         instance: InstanceId, first: nat, now: int, seconds: int) {
    && rows'.Keys == rows.Keys
    && forall k :: k in rows ==>
        rows'[k] == TickedRow(rows[k], OwnedHere(rows, k, d, instance), StartedSince(ts, k, first), now, seconds)
  }

  lemma HeldIsOwned(rows: map<Key, Row>, ts: seq<Tracked>, d: DeploymentId, instance: InstanceId, k: Key)
    requires InStep(ts, rows, d, instance)
    ensures HoldsKey(ts, k) <==> OwnedHere(rows, k, d, instance)
  {
    if HoldsKey(ts, k) {
      var i :| 0 <= i < |ts| && ts[i].lease.key == k;
      assert Tracks(ts[i], rows, d, instance);
    }
  }

  lemma NewIsStarted(reaped: seq<Tracked>, ts: seq<Tracked>, first: nat, k: Key)
    requires reaped <= ts && (forall t :: t in reaped ==> t.id < first)
    requires (forall t :: t in ts[|reaped|..] ==> t.id >= first)
    ensures HoldsKey(ts[|reaped|..], k) <==> StartedSince(ts, k, first)
  {
    var us := ts[|reaped|..];
    if HoldsKey(us, k) {
      var i :| 0 <= i < |us| && us[i].lease.key == k;
      assert ts[|reaped| + i] == us[i] && us[i] in us;
    }
    forall j | 0 <= j < |reaped| ensures ts[j].id < first {
      assert ts[j] == reaped[j];
    }
    if StartedSince(ts, k, first) {
      var i :| 0 <= i < |ts| && ts[i].lease.key == k && ts[i].id >= first;
      assert us[i - |reaped|] == ts[i];
    }
  }

  lemma TickedRows(rows: map<Key, Row>, rows1: map<Key, Row>, rows2: map<Key, Row>, reaped: seq<Tracked>,
                   ts: seq<Tracked>, d: DeploymentId, instance: InstanceId, first: nat, nextId: nat, now: int,
                   seconds: int)
    requires InStep(ts, rows, d, instance) && TrackedInv(ts, d, instance, nextId)
    requires reaped <= ts && (forall t :: t in reaped ==> t.id < first)
    requires (forall t :: t in ts[|reaped|..] ==> t.id >= first)
    requires Reported(rows, rows1, ts[|reaped|..]) && Renewed(rows1, rows2, ts, now, seconds)
    ensures Ticked(rows, rows2, ts, d, instance, first, now, seconds) && InStep(ts, rows2, d, instance)
  {
    forall k | k in rows ensures rows2[k] == TickedRow(rows[k], OwnedHere(rows, k, d, instance), StartedSince(ts, k, first), now, seconds) {
      HeldIsOwned(rows, ts, d, instance, k);
      NewIsStarted(reaped, ts, first, k);
    }
    SameOwners(rows, rows2, ts, d, instance, first, now, seconds);
  }

  lemma SameOwners(rows: map<Key, Row>, rows': map<Key, Row>, ts: seq<Tracked>, d: DeploymentId, instance: InstanceId,
                   first: nat, now: int, seconds: int)
    requires InStep(ts, rows, d, instance) && Ticked(rows, rows', ts, d, instance, first, now, seconds)
    ensures InStep(ts, rows', d, instance)
  {
    forall t | t in ts ensures Tracks(t, rows', d, instance) {
      assert Tracks(t, rows, d, instance);
    }
    forall k | OwnedHere(rows', k, d, instance) ensures HoldsKey(ts, k) {
      assert OwnedHere(rows, k, d, instance);
    }
  }

  /** A task survives exactly when it has not finished and its row still carries its token; the others are new. */
  ghost predicate Survivors(before: seq<Tracked>, ts: seq<Tracked>, rows: map<Key, Row>, d: DeploymentId,
                            instance: InstanceId, done: set<nat>, first: nat) {
    && (forall t :: t in before ==> (t in ts <==> t.id !in done && Tracks(t, rows, d, instance)))
    && (forall t :: t in ts && t !in before ==> t.id >= first)
  }

  lemma BackedIsTracked(s: Store, d: DeploymentId, xs: seq<Stored>, t: Tracked, instance: InstanceId)
    requires FullSnapshot(s, d, xs) && t.lease.key == Key(d, t.partition) && t.lease.owner == instance
    ensures Backed(t, xs, instance) <==> Tracks(t, s.rows, d, instance)
  {
    if Backed(t, xs, instance) {
    }
    if Tracks(t, s.rows, d, instance) {
      assert Listed(d, xs, t.lease.key);
      var i :| 0 <= i < |xs| && xs[i].id == t.partition;
      assert t.lease.key == Key(d, xs[i].id) && s.rows[t.lease.key] == xs[i].row;
    }
  }

  lemma TickedSurvivors(s: Store, xs: seq<Stored>, before: seq<Tracked>, reaped: seq<Tracked>, ts: seq<Tracked>,
                        d: DeploymentId, instance: InstanceId, done: set<nat>, first: nat)
    requires FullSnapshot(s, d, xs) && TrackedInv(before, d, instance, first)
    requires forall t :: t in reaped <==> t in before && Backed(t, xs, instance) && t.id !in done
    requires reaped <= ts && (forall t :: t in ts[|reaped|..] ==> t.id >= first)
    ensures Survivors(before, ts, s.rows, d, instance, done, first)
  {
    forall t | t in ts ensures t in reaped || t.id >= first {
      var i :| 0 <= i < |ts| && ts[i] == t;
      assert if i < |reaped| then reaped[i] == t else ts[|reaped|..][i - |reaped|] == t;
    }
    forall t | t in before ensures t in ts <==> t.id !in done && Tracks(t, s.rows, d, instance) {
      BackedIsTracked(s, d, xs, t, instance);
      if t in reaped {
        var i :| 0 <= i < |reaped| && reaped[i] == t;
        assert ts[i] == t;
      }
    }
  }

  /** The lease of a tracked task ran out; its renewal is refused. */
  predicate Lapsed(t: Tracked, rows: map<Key, Row>, now: int) {
    t.lease.key in rows && (rows[t.lease.key].leaseExpiresAt.Some? ==> rows[t.lease.key].leaseExpiresAt.value <= now)
  }

  predicate StopOf(a: Action, before: seq<Tracked>, rows: map<Key, Row>, d: DeploymentId, instance: InstanceId, done: set<nat>) {
    a.Cancelled? && a.reason == "ownership lost" &&
    exists t :: t in before && t.id == a.id && t.id !in done && !Tracks(t, rows, d, instance)
  }

  predicate StartOf(a: Action, before: seq<Tracked>, ts: seq<Tracked>) {
    a.Started? && a.task in ts && a.task !in before
  }

  predicate RefusalOf(a: Action, ts: seq<Tracked>, rows: map<Key, Row>, now: int) {
    a.Cancelled? && a.reason == "lease renewal rejected" && exists t :: t in ts && t.id == a.id && Lapsed(t, rows, now)
  }

  ghost predicate EachOnce(log: seq<Action>) {
    forall i, j :: 0 <= i < j < |log| ==> log[i] != log[j]
  }

  /** Stops come first, then starts, then refused renewals. */
  function Phase(a: Action): nat {
    if a.Started? then 1 else if a.reason == "ownership lost" then 0 else 2
  }

  /**
   What a tick adds to the log: a stop for each unfinished task whose row moved, a start for each new task and a
   refusal for each lease that ran out, each once and nothing else; whom a start displaces was stopped before it.
   */
  ghost predicate LoggedTick(log: seq<Action>, log': seq<Action>, before: seq<Tracked>, ts: seq<Tracked>,
                             rows: map<Key, Row>, d: DeploymentId, instance: InstanceId, done: set<nat>, now: int) {
    log <= log' && CancelledFirst(log', |log|, before, done) && EntriesOf(log'[|log|..], before, ts, rows, d, instance, done, now)
  }

  ghost predicate EntriesOf(entries: seq<Action>, before: seq<Tracked>, ts: seq<Tracked>, rows: map<Key, Row>, d: DeploymentId,
                            instance: InstanceId, done: set<nat>, now: int) {
    && EachOnce(entries) && (forall i, j :: 0 <= i < j < |entries| ==> Phase(entries[i]) <= Phase(entries[j]))
    && forall a :: a in entries <==>
        (StopOf(a, before, rows, d, instance, done) || StartOf(a, before, ts) || RefusalOf(a, ts, rows, now))
  }

  /** The entries of one of the loops: no two alike, and all of one phase. */
  ghost predicate OfPhase(log: seq<Action>, phase: nat) {
    EachOnce(log) && forall i :: 0 <= i < |log| ==> Phase(log[i]) == phase
  }

  lemma {:induction false} StopsAreExact(ts: seq<Tracked>, xs: seq<Stored>, d: DeploymentId, instance: InstanceId, done: set<nat>, nextId: nat)
    requires TrackedInv(ts, d, instance, nextId)
    ensures OfPhase(Stops(ts, xs, instance, done), 0)
    ensures forall a :: a in Stops(ts, xs, instance, done) <==>
              (a.Cancelled? && a.reason == "ownership lost" && exists t :: t in ts && t.id == a.id && t.id !in done && !Backed(t, xs, instance))
  {
    if ts != [] {
      var n := |ts| - 1;
      StopsAreExact(ts[..n], xs, d, instance, done, nextId);
      assert ts == ts[..n] + [ts[n]];
    }
  }

  lemma {:induction false} RejectionsAreExact(ts: seq<Tracked>, rows: map<Key, Row>, d: DeploymentId, instance: InstanceId, now: int, nextId: nat)
    requires TrackedInv(ts, d, instance, nextId) && forall t :: t in ts ==> t.lease.key in rows
    ensures OfPhase(Rejections(ts, rows, now), 2)
    ensures forall a :: a in Rejections(ts, rows, now) <==> RefusalOf(a, ts, rows, now)
  {
    if ts != [] {
      var n := |ts| - 1;
      RejectionsAreExact(ts[..n], rows, d, instance, now, nextId);
      assert ts == ts[..n] + [ts[n]];
      forall a | a in Rejections(ts[..n], rows, now) ensures a.Cancelled? && a.id != ts[n].id {
        assert RefusalOf(a, ts[..n], rows, now);
      }
    }
  }

  lemma StartsAreExact(ts: seq<Tracked>)
    requires forall i, j :: 0 <= i < j < |ts| ==> ts[i] != ts[j]
    ensures OfPhase(Starts(ts), 1) && forall a :: a in Starts(ts) <==> (a.Started? && a.task in ts)
  {
    forall t | t in ts ensures Started(t) in Starts(ts) {
      var i :| 0 <= i < |ts| && ts[i] == t;
      assert Starts(ts)[i] == Started(t);
    }
  }

  /** Three phases one after the other. */
  lemma PhasesInOrder(log: seq<Action>, a: seq<Action>, b: seq<Action>, c: seq<Action>)
    requires log == a + b + c && OfPhase(a, 0) && OfPhase(b, 1) && OfPhase(c, 2)
    ensures EachOnce(log) && forall i, j :: 0 <= i < j < |log| ==> Phase(log[i]) <= Phase(log[j])
    ensures forall x :: x in log <==> x in a || x in b || x in c
  {
    forall i | 0 <= i < |log|
      ensures log[i] == if i < |a| then a[i] else if i < |a| + |b| then b[i - |a|] else c[i - |a| - |b|]
    {
    }
  }

  lemma {:induction false} RejectionsCover(ts: seq<Tracked>, rows: map<Key, Row>, now: int)
    ensures forall t :: t in ts && Lapsed(t, rows, now) ==> Cancelled(t.id, "lease renewal rejected") in Rejections(ts, rows, now)
    ensures forall i :: 0 <= i < |Rejections(ts, rows, now)| ==> Rejections(ts, rows, now)[i].Cancelled?
  {
    if ts != [] {
      RejectionsCover(ts[..|ts| - 1], rows, now);
    }
  }

  /** The three loops write one after the other: stops, then starts, then refused renewals. */
  ghost predicate InPhases(log: seq<Action>, stops: seq<Action>, started: seq<Tracked>, refused: seq<Action>,
                           log': seq<Action>) {
    && log' == log + stops + Starts(started) + refused
    && (forall i :: 0 <= i < |stops| ==> stops[i].Cancelled?)
    && (forall i :: 0 <= i < |refused| ==> refused[i].Cancelled?)
  }

  lemma Phases(log: seq<Action>, stops: seq<Action>, started: seq<Tracked>, ts: seq<Tracked>, rows: map<Key, Row>,
               now: int, log': seq<Action>)
    requires forall i :: 0 <= i < |stops| ==> stops[i].Cancelled?
    requires log' == log + stops + Starts(started) + Rejections(ts, rows, now)
    ensures InPhases(log, stops, started, Rejections(ts, rows, now), log')
  {
    RejectionsCover(ts, rows, now);
  }

  lemma SliceOfSlice<T>(s: seq<T>, a: nat, b: nat, c: nat)
    requires a <= b <= c <= |s|
    ensures s[a..c][..b - a] == s[a..b]
  {
  }

  lemma StopsComeFirst(log: seq<Action>, stops: seq<Action>, started: seq<Tracked>, refused: seq<Action>,
                       log': seq<Action>, i: nat)
    requires InPhases(log, stops, started, refused, log') && |log| <= i < |log'| && log'[i].Started?
    ensures 0 <= i - |log| - |stops| < |started| && log'[i].task == started[i - |log| - |stops|]
    ensures log'[|log|..i][..|stops|] == stops
  {
    assert forall x :: 0 <= x < |stops| ==> log'[|log| + x] == stops[x];
    var m := |log| + |stops|;
    forall y | |log| <= y < m ensures log'[y].Cancelled? {
      assert log'[y] == stops[y - |log|];
    }
    forall y | m + |started| <= y < |log'| ensures log'[y].Cancelled? {
      assert log'[y] == refused[y - m - |started|];
    }
    assert m <= i;
    SliceOfSlice(log', |log|, m, i);
  }

  lemma TickedLog(s: Store, xs: seq<Stored>, log: seq<Action>, stops: seq<Action>, refused: seq<Action>,
                  log': seq<Action>, before: seq<Tracked>, reaped: seq<Tracked>, ts: seq<Tracked>, d: DeploymentId,
                  instance: InstanceId, done: set<nat>, first: nat, nextId: nat)
    requires FullSnapshot(s, d, xs) && TrackedInv(before, d, instance, first) && TrackedInv(ts, d, instance, nextId)
    requires forall t :: t in reaped <==> t in before && Backed(t, xs, instance) && t.id !in done
    requires reaped <= ts && InPhases(log, stops, ts[|reaped|..], refused, log')
    requires forall t :: t in before && !Backed(t, xs, instance) && t.id !in done ==> Cancelled(t.id, "ownership lost") in stops
    ensures CancelledFirst(log', |log|, before, done)
  {
    var us := ts[|reaped|..];
    forall i, t | |log| <= i < |log'| && log'[i].Started? && t in before && t.partition == log'[i].task.partition
      ensures t.id in done || Cancelled(t.id, "ownership lost") in log'[|log|..i]
    {
      StopsComeFirst(log, stops, us, refused, log', i);
      NewPartition(ts, reaped, d, instance, nextId, i - |log| - |stops|, t);
      if t.id !in done {
        assert Cancelled(t.id, "ownership lost") in log'[|log|..i][..|stops|];
      }
    }
  }

  lemma TickedEntries(s: Store, xs: seq<Stored>, entries: seq<Action>, before: seq<Tracked>, reaped: seq<Tracked>, ts: seq<Tracked>,
                      rows1: map<Key, Row>, d: DeploymentId, instance: InstanceId, done: set<nat>, first: nat, nextId: nat, now: int)
    requires FullSnapshot(s, d, xs) && TrackedInv(before, d, instance, first) && TrackedInv(ts, d, instance, nextId)
    requires reaped == Reap(before, xs, instance, done) && reaped <= ts && Reported(s.rows, rows1, ts[|reaped|..])
    requires (forall t :: t in ts[|reaped|..] ==> t.id >= first) && InStep(ts, s.rows, d, instance)
    requires entries == Stops(before, xs, instance, done) + Starts(ts[|reaped|..]) + Rejections(ts, rows1, now)
    ensures EntriesOf(entries, before, ts, s.rows, d, instance, done, now)
  {
    var us := ts[|reaped|..];
    StopsAreExact(before, xs, d, instance, done, first);
    StartsAreExact(us);
    assert forall t :: t in ts ==> Tracks(t, s.rows, d, instance);
    RejectionsAreExact(ts, rows1, d, instance, now, nextId);
    PhasesInOrder(entries, Stops(before, xs, instance, done), Starts(us), Rejections(ts, rows1, now));
    StopsGoByRows(s, xs, before, d, instance, done, first);
    StartsAreNew(xs, before, reaped, ts, instance, done, d, first);
    forall a ensures RefusalOf(a, ts, rows1, now) <==> RefusalOf(a, ts, s.rows, now) {
      assert forall t :: t in ts ==> (Lapsed(t, rows1, now) <==> Lapsed(t, s.rows, now));
    }
  }

  lemma StopsGoByRows(s: Store, xs: seq<Stored>, before: seq<Tracked>, d: DeploymentId, instance: InstanceId, done: set<nat>, first: nat)
    requires FullSnapshot(s, d, xs) && TrackedInv(before, d, instance, first)
    ensures forall a: Action :: (a.Cancelled? && a.reason == "ownership lost" &&
                         exists t :: t in before && t.id == a.id && t.id !in done && !Backed(t, xs, instance)) <==>
                        StopOf(a, before, s.rows, d, instance, done)
  {
    forall t | t in before ensures Backed(t, xs, instance) <==> Tracks(t, s.rows, d, instance) {
      BackedIsTracked(s, d, xs, t, instance);
    }
  }

  lemma StartsAreNew(xs: seq<Stored>, before: seq<Tracked>, reaped: seq<Tracked>, ts: seq<Tracked>, instance: InstanceId, done: set<nat>,
                     d: DeploymentId, first: nat)
    requires TrackedInv(before, d, instance, first) && reaped == Reap(before, xs, instance, done) && reaped <= ts
    requires forall t :: t in ts[|reaped|..] ==> t.id >= first
    ensures forall a: Action :: (a.Started? && a.task in ts[|reaped|..]) <==> StartOf(a, before, ts)
  {
    ReapedAreBacked(before, xs, instance, done);
    forall t | t in ts && t !in before ensures t in ts[|reaped|..] {
      var i :| 0 <= i < |ts| && ts[i] == t;
      assert forall j :: 0 <= j < |reaped| ==> ts[j] == reaped[j] && reaped[j] in before;
      assert ts[|reaped|..][i - |reaped|] == t;
    }
  }

  /** The log of a whole tick, from what its three loops wrote. */
  lemma TickLogs(s: Store, xs: seq<Stored>, log: seq<Action>, log': seq<Action>, before: seq<Tracked>, reaped: seq<Tracked>,
                 ts: seq<Tracked>, rows1: map<Key, Row>, d: DeploymentId, instance: InstanceId, done: set<nat>, first: nat,
                 nextId: nat, now: int)
    requires FullSnapshot(s, d, xs) && TrackedInv(before, d, instance, first) && TrackedInv(ts, d, instance, nextId)
    requires reaped == Reap(before, xs, instance, done) && reaped <= ts && Reported(s.rows, rows1, ts[|reaped|..])
    requires (forall t :: t in ts[|reaped|..] ==> t.id >= first) && InStep(ts, s.rows, d, instance)
    requires log' == log + Stops(before, xs, instance, done) + Starts(ts[|reaped|..]) + Rejections(ts, rows1, now)
    ensures LoggedTick(log, log', before, ts, s.rows, d, instance, done, now)
  {
    TickStopsFirst(s, xs, log, log', before, reaped, ts, rows1, d, instance, done, first, nextId, now);
    NewEntries(log, Stops(before, xs, instance, done), Starts(ts[|reaped|..]), Rejections(ts, rows1, now), log');
    TickedEntries(s, xs, log'[|log|..], before, reaped, ts, rows1, d, instance, done, first, nextId, now);
  }

  lemma TickStopsFirst(s: Store, xs: seq<Stored>, log: seq<Action>, log': seq<Action>, before: seq<Tracked>, reaped: seq<Tracked>,
                       ts: seq<Tracked>, rows1: map<Key, Row>, d: DeploymentId, instance: InstanceId, done: set<nat>, first: nat,
                       nextId: nat, now: int)
    requires FullSnapshot(s, d, xs) && TrackedInv(before, d, instance, first) && TrackedInv(ts, d, instance, nextId)
    requires reaped == Reap(before, xs, instance, done) && reaped <= ts
    requires log' == log + Stops(before, xs, instance, done) + Starts(ts[|reaped|..]) + Rejections(ts, rows1, now)
    ensures CancelledFirst(log', |log|, before, done)
  {
    var stops, refused := Stops(before, xs, instance, done), Rejections(ts, rows1, now);
    ReapedAreBacked(before, xs, instance, done);
    StopsCover(before, xs, instance, done);
    Phases(log, stops, ts[|reaped|..], ts, rows1, now, log');
    TickedLog(s, xs, log, stops, refused, log', before, reaped, ts, d, instance, done, first, nextId);
  }

  lemma NewEntries(log: seq<Action>, a: seq<Action>, b: seq<Action>, c: seq<Action>, log': seq<Action>)
    requires log' == log + a + b + c
    ensures log <= log' && log'[|log|..] == a + b + c
  {
  }

  lemma NewPartition(ts: seq<Tracked>, reaped: seq<Tracked>, d: DeploymentId, instance: InstanceId, nextId: nat,
                     j: nat, t: Tracked)
    requires TrackedInv(ts, d, instance, nextId) && reaped <= ts && j < |ts| - |reaped|
    requires t.partition == ts[|reaped|..][j].partition
    ensures t !in reaped
  {
    forall i | 0 <= i < |reaped| ensures reaped[i] != t {
      assert ts[i] == reaped[i] && ts[|reaped| + j].partition == t.partition;
    }
  }

  class ContinuousSupervisor {
    const store: ContinuousStore.ContinuousStateStore
    const deployment: DeploymentId
    const instance: InstanceId
    const leaseSeconds: int
    var running: seq<Tracked>
    var nextId: nat
    var log: seq<Action>

    constructor (store: ContinuousStore.ContinuousStateStore, deployment: DeploymentId, instance: InstanceId,
                 leaseSeconds: int)
      ensures this.store == store && this.deployment == deployment && this.instance == instance
      ensures this.leaseSeconds == leaseSeconds
      ensures running == [] && log == [] && Valid()
    {
      this.store := store;
      this.deployment, this.instance, this.leaseSeconds := deployment, instance, leaseSeconds;
      running, nextId, log := [], 0, [];
    }

    ghost predicate Valid()
      reads this
    {
      && store as object != this
      && TrackedInv(running, deployment, instance, nextId)
    }

    /** Drop the tasks that finished, and stop and drop those whose row moved. */
    method ReapTasks(xs: seq<Stored>, done: set<nat>)
      requires Valid()
      modifies this`running, this`log
      ensures Valid() && running == Reap(old(running), xs, instance, done)
      ensures log == old(log) + Stops(old(running), xs, instance, done)
    {
      var ts := running;
      running := [];
      for n := 0 to |ts|
        invariant running == Reap(ts[..n], xs, instance, done)
        invariant log == old(log) + Stops(ts[..n], xs, instance, done)
      {
        ReapOneMore(old(log), log, ts, n, xs, instance, done);
        var t := ts[n];
        if t.id in done {
          continue;
        }
        if Backed(t, xs, instance) {
          running := running + [t];
        } else {
          log := log + [Cancelled(t.id, "ownership lost")];
        }
      }
      assert ts[..|ts|] == ts;
      ReapKeepsInv(ts, xs, deployment, instance, done, nextId);
    }

    /** Start a task for every owned row that has none. */
    method StartTasks(now: int, xs: seq<Stored>) returns (ghost es: seq<Event>)
      requires Valid() && Snapshot(store.At(now), deployment, xs) && AllBacked(running, xs, instance)
      modifies this`running, this`nextId, this`log, store
      ensures Valid() && Agrees(running, xs, instance, |xs|)
      ensures old(running) <= running && forall t :: t in running[|old(running)|..] ==> t.id >= old(nextId)
      ensures log == old(log) + Starts(running[|old(running)|..])
      ensures Reported(old(store.rows), store.rows, running[|old(running)|..])
      ensures store.At(now) == Run(old(store.At(now)), es) && OnlyOwnLeases(es, instance)
    {
      es := [];
      ghost var before, rows, first := running, store.rows, nextId;
      for n := 0 to |xs|
        invariant Valid() && Starting(rows, store.rows, before, running, xs, instance, first, nextId, n)
        invariant log == old(log) + Starts(running[|before|..])
        invariant store.At(now) == Run(old(store.At(now)), es) && OnlyOwnLeases(es, instance)
      {
        if !Mine(xs[n], instance) || TracksPartition(running, xs[n].id) {
          AgreesOnOneMore(running, running, xs, instance, n);
          continue;
        }
        ghost var t := Tracked(xs[n].id, LeaseHandle(Key(deployment, xs[n].id), instance, xs[n].row.token), nextId);
        StartedTask(rows, store.rows, before, running, xs, deployment, instance, first, nextId, n, t);
        StartsOneMore(old(log), log, running[|before|..], t);
        ExtendRun(old(store.At(now)), es, SetStatus(t.lease, Running), instance);
        StartTask(now, xs[n]);
        es := es + [SetStatus(t.lease, Running)];
      }
    }

    /** Create and track a task, and report its row as running. */
    method StartTask(now: int, x: Stored)
      requires Valid() && Matches(store.rows, LeaseHandle(Key(deployment, x.id), instance, x.row.token))
      modifies this`running, this`nextId, this`log, store
      ensures var t := Tracked(x.id, LeaseHandle(Key(deployment, x.id), instance, x.row.token), old(nextId));
              && running == old(running) + [t] && nextId == old(nextId) + 1 && log == old(log) + [Started(t)]
              && store.rows == old(store.rows)[t.lease.key := old(store.rows)[t.lease.key].(status := Running)]
              && store.At(now) == Step(old(store.At(now)), SetStatus(t.lease, Running))
    {
      var lease := LeaseHandle(Key(deployment, x.id), instance, x.row.token);
      var t := Tracked(x.id, lease, nextId);
      running, nextId, log := running + [t], nextId + 1, log + [Started(t)];
      var _ := store.SetPartitionStatus(now, lease, Running);
    }

    /** Renew every tracked lease; a refused renewal cancels its task, which stays tracked until it ends. */
    method RenewLeases(now: int) returns (ghost es: seq<Event>)
      requires Valid() && forall t :: t in running ==> Matches(store.rows, t.lease)
      modifies this`log, store
      ensures Valid()
      ensures Renewed(old(store.rows), store.rows, running, now, leaseSeconds)
      ensures log == old(log) + Rejections(running, old(store.rows), now)
      ensures store.At(now) == Run(old(store.At(now)), es) && OnlyOwnLeases(es, instance)
    {
      es := [];
      ghost var rows := store.rows;
      for n := 0 to |running|
        invariant Valid()
        invariant Renewed(rows, store.rows, running[..n], now, leaseSeconds)
        invariant log == old(log) + Rejections(running[..n], rows, now)
        invariant store.At(now) == Run(old(store.At(now)), es) && OnlyOwnLeases(es, instance)
      {
        var t := running[n];
        NotHeldBefore(running, deployment, instance, nextId, n);
        RenewedOneMore(rows, store.rows, running[..n], t, now, leaseSeconds);
        RejectionsOneMore(old(log), log, running[..n], t, rows, now);
        ExtendRun(old(store.At(now)), es, Renew(t.lease, leaseSeconds), instance);
        RenewTask(now, t);
        es := es + [Renew(t.lease, leaseSeconds)];
      }
      assert running[..|running|] == running;
    }

    method RenewTask(now: int, t: Tracked)
      requires store as object != this && Matches(store.rows, t.lease)
      modifies this`log, store
      ensures store.rows == if Unexpired(old(store.rows)[t.lease.key], now)
                            then old(store.rows)[t.lease.key := old(store.rows)[t.lease.key].(leaseExpiresAt := Some(now + leaseSeconds))]
                            else old(store.rows)
      ensures log == old(log) + Rejection(t, old(store.rows), now)
      ensures store.At(now) == Step(old(store.At(now)), Renew(t.lease, leaseSeconds))
    {
      var ok := store.RenewLease(now, t.lease, leaseSeconds);
      if !ok {
        log := log + [Cancelled(t.id, "lease renewal rejected")];
      }
    }

    /**
     One pass. Afterwards the tracked tasks are exactly the rows this instance owns, each under its row's token;
     every own row was renewed unless its time had run out, and reported running if its task is new; survivors are
     the unfinished tasks whose row still carries their token; a displaced task was cancelled before its
     partition started again; and the store moved by a sequence of this instance's lease transactions.
     */
    method Tick(now: int, lookup: Option<TickError>, done: set<nat>)
      returns (result: Result<nat, TickError>, ghost es: seq<Event>)
      requires Valid() && RowInv(store.At(now))
      modifies this`running, this`nextId, this`log, store
      ensures Valid() && RowInv(store.At(now))
      ensures store.At(now) == Run(old(store.At(now)), es) && OnlyOwnLeases(es, instance)
      ensures lookup.Some? ==> result == Failure(lookup.value) && es == [] && running == old(running) && log == old(log)
      ensures lookup.None? ==>
                && result == Success(|running|)
                && InStep(running, old(store.rows), deployment, instance) && InStep(running, store.rows, deployment, instance)
                && Ticked(old(store.rows), store.rows, running, deployment, instance, old(nextId), now, leaseSeconds)
                && Survivors(old(running), running, old(store.rows), deployment, instance, done, old(nextId))
                && LoggedTick(old(log), log, old(running), running, old(store.rows), deployment, instance, done, now)
    {
      es := [];
      if lookup.Some? {
        return Failure(lookup.value), es;
      }
      ghost var s0, log0, before, first := store.At(now), log, running, nextId;
      var xs := store.Partitions(deployment);
      ReapTasks(xs, done);
      ghost var reaped := running;
      ReapedAreBacked(before, xs, instance, done);
      es := StartTasks(now, xs);
      ghost var rows1 := store.rows;
      AgreesInStep(s0, deployment, xs, running, instance, nextId);
      StillMatched(s0.rows, rows1, running, running[|reaped|..], deployment, instance);
      ghost var fs := RenewLeases(now);
      RunAppends(s0, es, fs, instance);
      es := es + fs;
      TickedRows(s0.rows, rows1, store.rows, reaped, running, deployment, instance, first, nextId, now, leaseSeconds);
      TickedSurvivors(s0, xs, before, reaped, running, deployment, instance, done, first);
      TickLogs(s0, xs, log0, log, before, reaped, running, rows1, deployment, instance, done, first, nextId, now);
      OwnLeasesKeepRows(s0, es, instance);
      result := Success(|running|);
    }
  }

  /** Whoever tracks a row by its current owner and token holds a lease that was granted. */
  lemma TrackedHandlesAreIssued(es: seq<Event>, t: Tracked, d: DeploymentId, instance: InstanceId)
    requires Tracks(t, Run(Init, es).rows, d, instance)
    ensures t.lease in Run(Init, es).issued
  {
    RunKeepsLeases(Init, es);
  }

  lemma {:induction false} RunFromPrefix(s: Store, es: seq<Event>, i: nat)
    requires i <= |es|
    ensures Run(Run(s, es[..i]), es[i..]) == Run(s, es)
  {
    if i == |es| {
      assert es[..i] == es;
    } else {
      var n := |es| - 1;
      RunFromPrefix(s, es[..n], i);
      assert es[..n][..i] == es[..i] && es[..n][i..] == es[i..][..n - i] && es[i..][n - i] == es[n];
    }
  }

  /**
   Whenever any supervisors read their rows, the tasks they ever track for a partition never share it: equal tokens
   mean the same lease, and while one lease is accepted every other is refused, now and in every future.
   */
  lemma {:induction false} SupervisorsNeverShareAPartition(es: seq<Event>, i: nat, j: nat, t: Tracked, u: Tracked,
                                                           d: DeploymentId, a: InstanceId, b: InstanceId,
                                                           future: seq<Event>)
    requires i <= |es| && j <= |es| && t.partition == u.partition
    requires Tracks(t, Run(Init, es[..i]).rows, d, a) && Tracks(u, Run(Init, es[..j]).rows, d, b)
    ensures t.lease.token == u.lease.token ==> t.lease == u.lease && a == b
    ensures Accepts(Run(Init, es), t.lease) && t.lease != u.lease ==>
              u.lease.token < t.lease.token && !Accepts(Run(Init, es), u.lease) && !Accepts(Run(Run(Init, es), future), u.lease)
  {
    HandlesStayIssued(es, i, t, d, a);
    HandlesStayIssued(es, j, u, d, b);
    OneOwnerPerToken(es, t.lease, u.lease);
    if Accepts(Run(Init, es), t.lease) && t.lease != u.lease {
      LeasesAreOneWay(es, future, u.lease);
    }
  }

  lemma HandlesStayIssued(es: seq<Event>, i: nat, t: Tracked, d: DeploymentId, instance: InstanceId)
    requires i <= |es| && Tracks(t, Run(Init, es[..i]).rows, d, instance)
    ensures t.lease in Run(Init, es).issued
  {
    TrackedHandlesAreIssued(es[..i], t, d, instance);
    RunKeepsLeases(Init, es[..i]);
    RunKeepsLeases(Run(Init, es[..i]), es[i..]);
    RunFromPrefix(Init, es, i);
  }
}
