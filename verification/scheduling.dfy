/**
 The reconciler's assignment pass (control/reconciler.py) over table values: a greedy least-loaded loop that
 acquires one lease after the other against a snapshot of the deployment's rows.
 */
module Scheduling {
  import opened Wrappers
  import opened ContinuousTables
  import opened Leases
  import Text

  type LoadMap = map<InstanceId, int>

  datatype Pass = Pass(store: Store, load: LoadMap, newlyAssigned: nat, reclaimed: nat)

  function Load(load: LoadMap, i: InstanceId): int {
    if i in load then load[i] else 0
  }

  /** `min(load, key=lambda i: (load[i], str(i)))`. */
  predicate Before(load: LoadMap, a: InstanceId, b: InstanceId) {
    Load(load, a) < Load(load, b) || (Load(load, a) == Load(load, b) && Text.Precedes(a, b))
  }

  function LeastLoaded(load: LoadMap, live: seq<InstanceId>): InstanceId
    requires live != []
  {
    var n := |live| - 1;
    if n == 0 then live[0]
    else
      var best := LeastLoaded(load, live[..n]);
      if Before(load, live[n], best) then live[n] else best
  }

  predicate NeedsAssign(row: Row, now: int, live: seq<InstanceId>) {
    || row.status.Unassigned?
    || (row.leaseExpiresAt.Some? && row.leaseExpiresAt.value < now)
    || (row.owner.Some? && row.owner.value !in live)
  }

  function Visit(p: Pass, d: DeploymentId, x: Stored, live: seq<InstanceId>, seconds: int): Pass
    requires live != []
  {
    if x.row.status.Inactive? || !NeedsAssign(x.row, p.store.now, live) then p
    else
      var owner := LeastLoaded(p.load, live);
      var (s, lease) := AcquireLease(p.store, Key(d, x.id), owner, seconds);
      if lease.None? then p
      else Pass(s, p.load[owner := Load(p.load, owner) + x.row.weight],
                p.newlyAssigned + (if x.row.owner.None? then 1 else 0), p.reclaimed + if x.row.owner.Some? then 1 else 0)
  }

  function VisitAll(p: Pass, d: DeploymentId, xs: seq<Stored>, live: seq<InstanceId>, seconds: int): Pass
    requires live != []
  {
    if xs == [] then p else Visit(VisitAll(p, d, xs[..|xs| - 1], live, seconds), d, xs[|xs| - 1], live, seconds)
  }

  /** The weight a row puts on a worker. */
  function Weight(row: Row, i: InstanceId): int {
    if row.owner == Some(i) && HeldStatus(row.status) then row.weight else 0
  }

  function SnapshotLoad(xs: seq<Stored>, i: InstanceId): int {
    if xs == [] then 0 else SnapshotLoad(xs[..|xs| - 1], i) + Weight(xs[|xs| - 1].row, i)
  }

  /** What a worker owns of the snapshot's partitions, read from the table. */
  function Owned(rows: map<Key, Row>, d: DeploymentId, xs: seq<Stored>, i: InstanceId): int
    requires forall j :: 0 <= j < |xs| ==> Key(d, xs[j].id) in rows
  {
    if xs == [] then 0 else Owned(rows, d, xs[..|xs| - 1], i) + Weight(rows[Key(d, xs[|xs| - 1].id)], i)
  }

  function Total(load: LoadMap, live: seq<InstanceId>): int {
    if live == [] then 0 else Total(load, live[..|live| - 1]) + Load(load, live[|live| - 1])
  }

  predicate Distinct(live: seq<InstanceId>) {
    forall i, j :: 0 <= i < j < |live| ==> live[i] != live[j]
  }

  /** The snapshot lists each row of the deployment once, as the table has it, and rows are coherent. */
  ghost predicate Snapshot(s: Store, d: DeploymentId, xs: seq<Stored>) {
    && (forall i, j :: 0 <= i < j < |xs| ==> xs[i].id != xs[j].id)
    && (forall i :: 0 <= i < |xs| ==> Key(d, xs[i].id) in s.rows && s.rows[Key(d, xs[i].id)] == xs[i].row && Coherent(xs[i].row))
  }

  /** And it misses none. */
  ghost predicate FullSnapshot(s: Store, d: DeploymentId, xs: seq<Stored>) {
    Snapshot(s, d, xs) && forall k :: k in s.rows && k.deployment == d ==> Listed(d, xs, k)
  }

  // ---- choosing a worker ----

  lemma {:induction false} LeastLoadedIsLeast(load: LoadMap, live: seq<InstanceId>)
    requires live != []
    ensures LeastLoaded(load, live) in live
    ensures forall i :: i in live ==> !Before(load, i, LeastLoaded(load, live))
  {
    var n := |live| - 1;
    var least := LeastLoaded(load, live);
    Text.PrecedesIsTotal(least, least);
    if n > 0 {
      var best := LeastLoaded(load, live[..n]);
      LeastLoadedIsLeast(load, live[..n]);
      forall i | i in live ensures !Before(load, i, least) {
        if i in live[..n] && Before(load, live[n], best) && Before(load, i, live[n]) {
          BeforeIsTransitive(load, i, live[n], best);
        }
      }
    }
  }

  lemma BeforeIsTransitive(load: LoadMap, a: InstanceId, b: InstanceId, c: InstanceId)
    requires Before(load, a, b) && Before(load, b, c)
    ensures Before(load, a, c)
  {
    if Text.Precedes(a, b) && Text.Precedes(b, c) {
      Text.PrecedesIsTransitive(a, b, c);
    }
  }

  /** The choice does not depend on the order the workers are listed in. */
  lemma {:induction false} LeastLoadedIsUnique(load: LoadMap, live: seq<InstanceId>, i: InstanceId)
    requires live != [] && i in live && forall j :: j in live ==> !Before(load, j, i)
    ensures i == LeastLoaded(load, live)
  {
    LeastLoadedIsLeast(load, live);
    Text.PrecedesIsTotal(i, LeastLoaded(load, live));
  }

  /** `min` over the workers. */
  method LeastLoadedOf(load: LoadMap, live: seq<InstanceId>) returns (owner: InstanceId)
    requires live != []
    ensures owner == LeastLoaded(load, live)
  {
    owner := live[0];
    for n := 1 to |live|
      invariant owner == LeastLoaded(load, live[..n])
    {
      assert live[..n + 1][..n] == live[..n];
      if Before(load, live[n], owner) {
        owner := live[n];
      }
    }
    assert live[..|live|] == live;
  }

  // ---- what a pass does to the rows ----

  /** Rows the pass takes: free ones, and held ones whose lease ran out. */
  predicate Takes(row: Row, now: int) {
    OfKind(row, Free) || OfKind(row, Lapsed(now))
  }

  /** The rows the counters of a pass tell apart. */
  datatype Kind = Free | Lapsed(now: int) | Retired

  predicate OfKind(row: Row, kind: Kind) {
    match kind
    case Free => row.status.Unassigned?
    case Lapsed(now) => HeldStatus(row.status) && row.leaseExpiresAt.Some? && row.leaseExpiresAt.value < now
    case Retired => row.status.Inactive?
  }

  function CountOf(xs: seq<Stored>, kind: Kind): nat {
    if xs == [] then 0 else CountOf(xs[..|xs| - 1], kind) + if OfKind(xs[|xs| - 1].row, kind) then 1 else 0
  }

  /** The rows of a kind that a deployment has in the table. */
  function RowsOf(rows: map<Key, Row>, d: DeploymentId, kind: Kind): set<Key> {
    set k | k in rows && k.deployment == d && OfKind(rows[k], kind)
  }

  function KeysOf(d: DeploymentId, xs: seq<Stored>, kind: Kind): set<Key> {
    if xs == [] then {}
    else KeysOf(d, xs[..|xs| - 1], kind) + if OfKind(xs[|xs| - 1].row, kind) then {Key(d, xs[|xs| - 1].id)} else {}
  }

  predicate Counted(d: DeploymentId, xs: seq<Stored>, kind: Kind, k: Key) {
    k.deployment == d && exists i :: 0 <= i < |xs| && xs[i].id == k.partition && OfKind(xs[i].row, kind)
  }

  lemma {:induction false} KeyIsCounted(d: DeploymentId, xs: seq<Stored>, kind: Kind, k: Key)
    ensures k in KeysOf(d, xs, kind) <==> Counted(d, xs, kind, k)
  {
    if xs != [] {
      var n := |xs| - 1;
      KeyIsCounted(d, xs[..n], kind, k);
      if Counted(d, xs, kind, k) && k !in KeysOf(d, xs[..n], kind) {
        var i :| 0 <= i < |xs| && xs[i].id == k.partition && OfKind(xs[i].row, kind);
        assert i < n ==> xs[..n][i] == xs[i];
      }
    }
  }

  lemma {:induction false} KeysAreCounted(d: DeploymentId, xs: seq<Stored>, kind: Kind)
    requires forall i, j :: 0 <= i < j < |xs| ==> xs[i].id != xs[j].id
    ensures |KeysOf(d, xs, kind)| == CountOf(xs, kind)
  {
    if xs != [] {
      var n := |xs| - 1;
      KeysAreCounted(d, xs[..n], kind);
      KeyIsCounted(d, xs[..n], kind, Key(d, xs[n].id));
      LastIsNew(d, xs, kind);
    }
  }

  lemma LastIsNew(d: DeploymentId, xs: seq<Stored>, kind: Kind)
    requires xs != [] && forall i, j :: 0 <= i < j < |xs| ==> xs[i].id != xs[j].id
    ensures !Counted(d, xs[..|xs| - 1], kind, Key(d, xs[|xs| - 1].id))
  {
  }

  /** Counting what was read counts the rows of the table. */
  lemma CountIsOfTheTable(rows: map<Key, Row>, d: DeploymentId, xs: seq<Stored>, kind: Kind)
    requires ReadFrom(rows, d, xs)
    ensures CountOf(xs, kind) == |RowsOf(rows, d, kind)|
  {
    KeysAreCounted(d, xs, kind);
    forall k ensures k in KeysOf(d, xs, kind) <==> k in RowsOf(rows, d, kind) {
      KeyIsCounted(d, xs, kind, k);
      if k in RowsOf(rows, d, kind) {
        assert Listed(d, xs, k);
        var i :| 0 <= i < |xs| && xs[i].id == k.partition;
        assert k == Key(d, xs[i].id);
      }
    }
    assert KeysOf(d, xs, kind) == RowsOf(rows, d, kind);
  }

  lemma VisitOne(p: Pass, d: DeploymentId, x: Stored, live: seq<InstanceId>, seconds: int)
    requires live != [] && Key(d, x.id) in p.store.rows && p.store.rows[Key(d, x.id)] == x.row && Coherent(x.row)
    ensures var q := Visit(p, d, x, live, seconds);
            var o := LeastLoaded(p.load, live);
            if Takes(x.row, p.store.now) then
              && q.store.rows == p.store.rows[Key(d, x.id) := Granted(x.row, p.store.now, o, seconds)]
              && q.store.now == p.store.now && q.store.box == p.store.box
              && q.load == p.load[o := Load(p.load, o) + x.row.weight]
              && q.newlyAssigned == p.newlyAssigned + (if x.row.status.Unassigned? then 1 else 0)
              && q.reclaimed == p.reclaimed + (if x.row.status.Unassigned? then 0 else 1)
            else q == p
  {
    LeastLoadedIsLeast(p.load, live);
  }

  /** A taken row is granted to a live worker; every other row stays as it was. */
  predicate RowAfter(row: Row, row': Row, now: int, live: seq<InstanceId>, seconds: int) {
    if Takes(row, now)
    then row'.owner.Some? && row'.owner.value in live && row' == Granted(row, now, row'.owner.value, seconds)
    else row' == row
  }

  predicate Visited(p: Pass, q: Pass, d: DeploymentId, x: Stored, live: seq<InstanceId>, seconds: int) {
    Key(d, x.id) in q.store.rows && RowAfter(x.row, q.store.rows[Key(d, x.id)], p.store.now, live, seconds)
  }

  /** No row outside the snapshot moves. */
  ghost predicate Framed(s: Store, t: Store, d: DeploymentId, xs: seq<Stored>) {
    && t.now == s.now && t.box == s.box && t.rows.Keys == s.rows.Keys
    && forall k :: k in s.rows && !Listed(d, xs, k) ==> t.rows[k] == s.rows[k]
  }

  lemma {:induction false} VisitAllRows(p: Pass, d: DeploymentId, xs: seq<Stored>, live: seq<InstanceId>, seconds: int)
    requires live != [] && Snapshot(p.store, d, xs)
    ensures Framed(p.store, VisitAll(p, d, xs, live, seconds).store, d, xs)
    ensures forall i :: 0 <= i < |xs| ==> Visited(p, VisitAll(p, d, xs, live, seconds), d, xs[i], live, seconds)
  {
    if xs != [] {
      var n := |xs| - 1;
      VisitAllRows(p, d, xs[..n], live, seconds);
      VisitLastRow(p, VisitAll(p, d, xs[..n], live, seconds), d, xs, xs[..n], live, seconds);
    }
  }

  /** Visiting a row leaves every other row alone. */
  lemma VisitChangesOne(p: Pass, d: DeploymentId, x: Stored, live: seq<InstanceId>, seconds: int)
    requires live != [] && Key(d, x.id) in p.store.rows && p.store.rows[Key(d, x.id)] == x.row && Coherent(x.row)
    ensures var s, t := p.store, Visit(p, d, x, live, seconds).store;
            && t.now == s.now && t.box == s.box && t.rows.Keys == s.rows.Keys
            && (forall k :: k in s.rows && k != Key(d, x.id) ==> t.rows[k] == s.rows[k])
            && RowAfter(x.row, t.rows[Key(d, x.id)], s.now, live, seconds)
  {
    VisitOne(p, d, x, live, seconds);
    LeastLoadedIsLeast(p.load, live);
  }

  lemma VisitLastRow(p: Pass, mid: Pass, d: DeploymentId, xs: seq<Stored>, front: seq<Stored>, live: seq<InstanceId>,
                     seconds: int)
    requires live != [] && xs != [] && Snapshot(p.store, d, xs) && front == xs[..|xs| - 1]
    requires Framed(p.store, mid.store, d, front)
    requires forall i :: 0 <= i < |front| ==> Visited(p, mid, d, front[i], live, seconds)
    ensures var q := Visit(mid, d, xs[|xs| - 1], live, seconds);
            && Framed(p.store, q.store, d, xs)
            && forall i :: 0 <= i < |xs| ==> Visited(p, q, d, xs[i], live, seconds)
  {
    var n := |xs| - 1;
    var q, k := Visit(mid, d, xs[n], live, seconds), Key(d, xs[n].id);
    assert !Listed(d, front, k);
    VisitChangesOne(mid, d, xs[n], live, seconds);
    forall i | 0 <= i < |xs| ensures Visited(p, q, d, xs[i], live, seconds) {
      if i < n {
        assert Visited(p, mid, d, front[i], live, seconds) && Key(d, xs[i].id) != k;
      }
    }
    forall other | other in p.store.rows && !Listed(d, xs, other) ensures q.store.rows[other] == p.store.rows[other] {
      assert other != k && !Listed(d, front, other);
    }
  }

  /** One turn of the loop: a taken row goes to a least loaded live worker, any other row is left alone. */
  ghost predicate Turn(mid: Pass, q: Pass, d: DeploymentId, x: Stored, live: seq<InstanceId>, seconds: int,
                       o: InstanceId) {
    var k := Key(d, x.id);
    && k in mid.store.rows && mid.store.rows[k] == x.row
    && o in live && (forall j :: j in live ==> Load(mid.load, o) <= Load(mid.load, j))
    && (if Takes(x.row, mid.store.now) then
          && q.store.rows == mid.store.rows[k := Granted(x.row, mid.store.now, o, seconds)]
          && q.load == mid.load[o := Load(mid.load, o) + x.row.weight]
          && q.newlyAssigned == mid.newlyAssigned + (if x.row.status.Unassigned? then 1 else 0)
          && q.reclaimed == mid.reclaimed + (if x.row.status.Unassigned? then 0 else 1)
        else q == mid)
  }

  /** The last turn, with everything before it summed up. */
  lemma LastTurn(p: Pass, d: DeploymentId, xs: seq<Stored>, live: seq<InstanceId>, seconds: int)
    returns (mid: Pass, o: InstanceId)
    requires live != [] && xs != [] && Snapshot(p.store, d, xs)
    ensures mid == VisitAll(p, d, xs[..|xs| - 1], live, seconds) && mid.store.now == p.store.now
    ensures Snapshot(p.store, d, xs[..|xs| - 1])
    ensures Turn(mid, VisitAll(p, d, xs, live, seconds), d, xs[|xs| - 1], live, seconds, o)
    ensures forall j :: 0 <= j < |xs| - 1 ==> Key(d, xs[j].id) in mid.store.rows && Key(d, xs[j].id) != Key(d, xs[|xs| - 1].id)
  {
    var n := |xs| - 1;
    mid := VisitAll(p, d, xs[..n], live, seconds);
    o := LeastLoaded(mid.load, live);
    VisitAllRows(p, d, xs[..n], live, seconds);
    assert !Listed(d, xs[..n], Key(d, xs[n].id));
    TurnOf(mid, d, xs[n], live, seconds);
    assert VisitAll(p, d, xs, live, seconds) == Visit(mid, d, xs[n], live, seconds);
  }

  lemma TurnOf(mid: Pass, d: DeploymentId, x: Stored, live: seq<InstanceId>, seconds: int)
    requires live != [] && Key(d, x.id) in mid.store.rows && mid.store.rows[Key(d, x.id)] == x.row && Coherent(x.row)
    ensures Turn(mid, Visit(mid, d, x, live, seconds), d, x, live, seconds, LeastLoaded(mid.load, live))
  {
    VisitOne(mid, d, x, live, seconds);
    LeastLoadedIsLeast(mid.load, live);
  }

  /** One counter counts the free rows, the other those whose lease ran out. */
  lemma {:induction false} CountersAreExact(p: Pass, d: DeploymentId, xs: seq<Stored>, live: seq<InstanceId>, seconds: int)
    requires live != [] && Snapshot(p.store, d, xs)
    ensures var q := VisitAll(p, d, xs, live, seconds);
            && q.newlyAssigned == p.newlyAssigned + CountOf(xs, Free)
            && q.reclaimed == p.reclaimed + CountOf(xs, Lapsed(p.store.now))
  {
    if xs != [] {
      var _, _ := LastTurn(p, d, xs, live, seconds);
      CountersAreExact(p, d, xs[..|xs| - 1], live, seconds);
    }
  }

  /** The pass as the lease transactions it commits. */
  function PassEvents(p: Pass, d: DeploymentId, xs: seq<Stored>, live: seq<InstanceId>, seconds: int): seq<Event>
    requires live != []
  {
    if xs == [] then []
    else
      var n := |xs| - 1;
      var mid := VisitAll(p, d, xs[..n], live, seconds);
      PassEvents(p, d, xs[..n], live, seconds) +
      if xs[n].row.status.Inactive? || !NeedsAssign(xs[n].row, mid.store.now, live) then []
      else [Acquire(Key(d, xs[n].id), LeastLoaded(mid.load, live), seconds)]
  }

  /** So everything that holds of every run of the tables holds across a pass. */
  lemma {:induction false} PassIsARun(p: Pass, d: DeploymentId, xs: seq<Stored>, live: seq<InstanceId>, seconds: int)
    requires live != []
    ensures VisitAll(p, d, xs, live, seconds).store == Run(p.store, PassEvents(p, d, xs, live, seconds))
  {
    if xs != [] {
      var n := |xs| - 1;
      PassIsARun(p, d, xs[..n], live, seconds);
      var es, fs := PassEvents(p, d, xs[..n], live, seconds), PassEvents(p, d, xs, live, seconds);
      if fs != es {
        assert fs[..|fs| - 1] == es;
      }
    }
  }

  // ---- convergence ----

  /** The row is where a converged deployment wants it. */
  predicate Settled(row: Row, now: int, live: seq<InstanceId>) {
    Leasable(row.status) ==>
      HeldStatus(row.status) && row.owner.Some? && row.owner.value in live && row.leaseExpiresAt.Some? && row.leaseExpiresAt.value >= now
  }

  /** A dead worker's lease that has not run out; the store refuses to hand the row to anybody else. */
  predicate HeldByDead(row: Row, now: int, live: seq<InstanceId>) {
    HeldStatus(row.status) && row.owner.Some? && row.owner.value !in live && row.leaseExpiresAt.Some? && row.leaseExpiresAt.value >= now
  }

  /**
   One pass converges every row except exactly those a dead worker still holds unexpired. In particular a pass
   after those leases ran out leaves no exception.
   */
  lemma {:induction false} PassConverges(p: Pass, d: DeploymentId, xs: seq<Stored>, live: seq<InstanceId>,
                                         seconds: nat, i: nat)
    requires live != [] && Snapshot(p.store, d, xs) && i < |xs|
    ensures var q := VisitAll(p, d, xs, live, seconds);
            && Key(d, xs[i].id) in q.store.rows
            && var row' := q.store.rows[Key(d, xs[i].id)];
               && (Settled(row', q.store.now, live) <==> !HeldByDead(xs[i].row, p.store.now, live))
               && (HeldByDead(xs[i].row, p.store.now, live) ==> row' == xs[i].row)
               && Coherent(row')
  {
    VisitAllRows(p, d, xs, live, seconds);
    assert Visited(p, VisitAll(p, d, xs, live, seconds), d, xs[i], live, seconds);
  }

  /** The snapshot a second pass takes of the same rows. */
  function Reread(s: Store, d: DeploymentId, xs: seq<Stored>): (ys: seq<Stored>)
    requires forall i :: 0 <= i < |xs| ==> Key(d, xs[i].id) in s.rows
    ensures |ys| == |xs|
  {
    if xs == [] then []
    else Reread(s, d, xs[..|xs| - 1]) + [Stored(xs[|xs| - 1].id, s.rows[Key(d, xs[|xs| - 1].id)])]
  }

  lemma {:induction false} RereadAt(s: Store, d: DeploymentId, xs: seq<Stored>, i: nat)
    requires (forall j :: 0 <= j < |xs| ==> Key(d, xs[j].id) in s.rows) && i < |xs|
    ensures Reread(s, d, xs)[i] == Stored(xs[i].id, s.rows[Key(d, xs[i].id)])
  {
    if i < |xs| - 1 {
      RereadAt(s, d, xs[..|xs| - 1], i);
    }
  }

  lemma {:induction false} NothingTaken(p: Pass, d: DeploymentId, xs: seq<Stored>, live: seq<InstanceId>, seconds: int)
    requires live != [] && Snapshot(p.store, d, xs)
    requires forall i :: 0 <= i < |xs| ==> !Takes(xs[i].row, p.store.now)
    ensures VisitAll(p, d, xs, live, seconds) == p
  {
    if xs != [] {
      NothingTaken(p, d, xs[..|xs| - 1], live, seconds);
      VisitOne(p, d, xs[|xs| - 1], live, seconds);
    }
  }

  /**
   Repeating the pass at the same instant changes nothing, no owner, no token and no status, exactly when the
   lease time is not negative or the first pass had nothing to take.
   */
  lemma {:induction false} PassIsIdempotent(p: Pass, d: DeploymentId, xs: seq<Stored>, live: seq<InstanceId>,
                                            seconds: int, load: LoadMap)
    requires live != [] && Snapshot(p.store, d, xs)
    ensures var q := VisitAll(p, d, xs, live, seconds);
            && (forall i :: 0 <= i < |xs| ==> Key(d, xs[i].id) in q.store.rows)
            && var ys := Reread(q.store, d, xs);
               && Snapshot(q.store, d, ys)
               && (VisitAll(Pass(q.store, load, 0, 0), d, ys, live, seconds).store == q.store <==>
                   seconds >= 0 || forall i :: 0 <= i < |xs| ==> !Takes(xs[i].row, p.store.now))
  {
    VisitAllRows(p, d, xs, live, seconds);
    var q := VisitAll(p, d, xs, live, seconds);
    forall i | 0 <= i < |xs| ensures Key(d, xs[i].id) in q.store.rows && Coherent(q.store.rows[Key(d, xs[i].id)]) {
      assert Visited(p, q, d, xs[i], live, seconds);
    }
    var ys := Reread(q.store, d, xs);
    forall i | 0 <= i < |xs| ensures ys[i] == Stored(xs[i].id, q.store.rows[Key(d, xs[i].id)]) {
      RereadAt(q.store, d, xs, i);
    }
    assert Snapshot(q.store, d, ys);
    var again := Pass(q.store, load, 0, 0);
    if seconds >= 0 || forall i :: 0 <= i < |xs| ==> !Takes(xs[i].row, p.store.now) {
      forall i | 0 <= i < |ys| ensures !Takes(ys[i].row, q.store.now) {
        assert Visited(p, q, d, xs[i], live, seconds);
      }
      NothingTaken(again, d, ys, live, seconds);
    } else {
      var i :| 0 <= i < |xs| && Takes(xs[i].row, p.store.now);
      assert Visited(p, q, d, xs[i], live, seconds);
      TakenAgain(again, d, ys, live, seconds, i);
    }
  }

  /** A lease of negative length has run out at once, so the next pass takes the row again. */
  lemma TakenAgain(p: Pass, d: DeploymentId, xs: seq<Stored>, live: seq<InstanceId>, seconds: int, i: nat)
    requires live != [] && Snapshot(p.store, d, xs) && i < |xs| && Takes(xs[i].row, p.store.now)
    ensures VisitAll(p, d, xs, live, seconds).store != p.store
  {
    VisitAllRows(p, d, xs, live, seconds);
    assert Visited(p, VisitAll(p, d, xs, live, seconds), d, xs[i], live, seconds);
  }

  predicate RereadRow(s: Store, d: DeploymentId, xs: seq<Stored>, ys: seq<Stored>, i: nat) {
    i < |xs| && i < |ys| ==> Key(d, xs[i].id) in s.rows && ys[i] == Stored(xs[i].id, s.rows[Key(d, xs[i].id)])
  }

  /** Reading coherent rows again gives a snapshot. */
  lemma {:induction false} RereadIsSnapshot(s: Store, d: DeploymentId, xs: seq<Stored>)
    requires forall i, j :: 0 <= i < j < |xs| ==> xs[i].id != xs[j].id
    requires forall i :: 0 <= i < |xs| ==> Key(d, xs[i].id) in s.rows && Coherent(s.rows[Key(d, xs[i].id)])
    ensures Snapshot(s, d, Reread(s, d, xs)) && forall i :: RereadRow(s, d, xs, Reread(s, d, xs), i)
  {
    var ys := Reread(s, d, xs);
    forall i | 0 <= i < |xs| ensures ys[i] == Stored(xs[i].id, s.rows[Key(d, xs[i].id)]) {
      RereadAt(s, d, xs, i);
    }
  }

  /** What a pass leaves of one row, read later: nobody dead holds it if the lease it had has run out. */
  lemma {:induction false} LaterRow(p: Pass, d: DeploymentId, xs: seq<Stored>, live: seq<InstanceId>, seconds: nat,
                                    elapsed: nat, i: nat)
    requires live != [] && Snapshot(p.store, d, xs) && i < |xs|
    requires HeldByDead(xs[i].row, p.store.now, live) ==> xs[i].row.leaseExpiresAt.value < p.store.now + elapsed
    ensures var rows := VisitAll(p, d, xs, live, seconds).store.rows;
            && Key(d, xs[i].id) in rows && Coherent(rows[Key(d, xs[i].id)])
            && !HeldByDead(rows[Key(d, xs[i].id)], p.store.now + elapsed, live)
  {
    PassConverges(p, d, xs, live, seconds, i);
    VisitAllRows(p, d, xs, live, seconds);
  }

  /**
   A second pass, taken after the leases of dead workers ran out, leaves no exception: every leasable row is held by
   a live worker under a lease that has not run out, whatever else the first pass found.
   */
  lemma {:induction false} TwoPassesConverge(p: Pass, d: DeploymentId, xs: seq<Stored>, live: seq<InstanceId>, seconds: nat,
                                             later: Store, load: LoadMap, i: nat)
    requires live != [] && Snapshot(p.store, d, xs) && i < |xs| && later.now >= p.store.now
    requires later == VisitAll(p, d, xs, live, seconds).store.(now := later.now)
    requires forall j :: 0 <= j < |xs| && HeldByDead(xs[j].row, p.store.now, live) ==> xs[j].row.leaseExpiresAt.value < later.now
    ensures forall j :: 0 <= j < |xs| ==> Key(d, xs[j].id) in later.rows
    ensures Snapshot(later, d, Reread(later, d, xs))
    ensures var rows := VisitAll(Pass(later, load, 0, 0), d, Reread(later, d, xs), live, seconds).store.rows;
            Key(d, xs[i].id) in rows && Settled(rows[Key(d, xs[i].id)], later.now, live)
  {
    var elapsed := later.now - p.store.now;
    forall j | 0 <= j < |xs| ensures Key(d, xs[j].id) in later.rows && Coherent(later.rows[Key(d, xs[j].id)]) {
      LaterRow(p, d, xs, live, seconds, elapsed, j);
    }
    RereadIsSnapshot(later, d, xs);
    LaterRow(p, d, xs, live, seconds, elapsed, i);
    SecondPassSettles(later, d, xs, live, seconds, load, i);
  }

  lemma {:induction false} SecondPassSettles(s: Store, d: DeploymentId, xs: seq<Stored>, live: seq<InstanceId>, seconds: nat,
                                             load: LoadMap, i: nat)
    requires live != [] && i < |xs| && forall j :: 0 <= j < |xs| ==> Key(d, xs[j].id) in s.rows
    requires var ys := Reread(s, d, xs); Snapshot(s, d, ys) && RereadRow(s, d, xs, ys, i)
    requires !HeldByDead(s.rows[Key(d, xs[i].id)], s.now, live)
    ensures var rows := VisitAll(Pass(s, load, 0, 0), d, Reread(s, d, xs), live, seconds).store.rows;
            Key(d, xs[i].id) in rows && Settled(rows[Key(d, xs[i].id)], s.now, live)
  {
    var ys, again := Reread(s, d, xs), Pass(s, load, 0, 0);
    assert ys[i].id == xs[i].id;
    PassConverges(again, d, ys, live, seconds, i);
    VisitAllRows(again, d, ys, live, seconds);
  }
}
