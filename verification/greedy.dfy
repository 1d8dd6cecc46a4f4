/**
 Whom the reconciler chooses (control/reconciler.py), told by the rows alone: what a worker holds is summed over the
 table, and every taken row goes to a worker that then carries the least.
 */
module Greedy {
  import opened Wrappers
  import opened ContinuousTables
  import opened Scheduling
  import opened Balance
  import opened Sums
  import Text

  /** The weights of the listed rows an instance owns and holds, by position. */
  function HeldIn(xs: seq<Stored>, i: InstanceId): map<nat, int> {
    map n: nat | n < |xs| && xs[n].row.owner == Some(i) && (xs[n].row.status == Assigned || xs[n].row.status == Running) :: xs[n].row.weight
  }

  /** The same for the rows of a deployment. */
  function HeldRows(rows: map<Key, Row>, d: DeploymentId, i: InstanceId): map<Key, int> {
    map k | k in rows && k.deployment == d && rows[k].owner == Some(i) && (rows[k].status == Assigned || rows[k].status == Running) :: rows[k].weight
  }

  lemma {:induction false} LoadIsWhatIsHeld(xs: seq<Stored>, i: InstanceId)
    ensures SnapshotLoad(xs, i) == SumOf(HeldIn(xs, i))
  {
    if xs == [] {
      assert HeldIn(xs, i) == map[];
    } else {
      LoadIsWhatIsHeld(xs[..|xs| - 1], i);
      HeldLast(xs, i);
    }
  }

  lemma HeldLast(xs: seq<Stored>, i: InstanceId)
    requires xs != []
    ensures SumOf(HeldIn(xs, i)) == SumOf(HeldIn(xs[..|xs| - 1], i)) + Weight(xs[|xs| - 1].row, i)
  {
    var n: nat, row := |xs| - 1, xs[|xs| - 1].row;
    var front: map<nat, int> := HeldIn(xs[..n], i);
    assert HeldIn(xs, i) == if n in HeldIn(xs, i) then front[n := row.weight] else front;
    if n in HeldIn(xs, i) {
      SumWith(front, n, row.weight);
    }
  }

  /** The held rows among those listed. */
  function HeldListed(rows: map<Key, Row>, d: DeploymentId, xs: seq<Stored>, i: InstanceId): map<Key, int> {
    map k | k in HeldRows(rows, d, i) && Listed(d, xs, k) :: rows[k].weight
  }

  lemma ListedInFrontOrLast(d: DeploymentId, xs: seq<Stored>, k: Key)
    requires xs != []
    ensures Listed(d, xs, k) <==> Listed(d, xs[..|xs| - 1], k) || k == Key(d, xs[|xs| - 1].id)
  {
    var n := |xs| - 1;
    if Listed(d, xs[..n], k) {
      var j :| 0 <= j < n && xs[..n][j].id == k.partition;
      assert xs[j].id == k.partition;
    }
    if Listed(d, xs, k) && k.partition != xs[n].id {
      var j :| 0 <= j < |xs| && xs[j].id == k.partition;
      assert xs[..n][j].id == k.partition;
    }
  }

  lemma HeldListedLast(rows: map<Key, Row>, d: DeploymentId, xs: seq<Stored>, i: InstanceId)
    requires xs != [] && Key(d, xs[|xs| - 1].id) in rows && !Listed(d, xs[..|xs| - 1], Key(d, xs[|xs| - 1].id))
    ensures SumOf(HeldListed(rows, d, xs, i)) == SumOf(HeldListed(rows, d, xs[..|xs| - 1], i)) + Weight(rows[Key(d, xs[|xs| - 1].id)], i)
  {
    var k, front := Key(d, xs[|xs| - 1].id), HeldListed(rows, d, xs[..|xs| - 1], i);
    forall other ensures Listed(d, xs, other) <==> Listed(d, xs[..|xs| - 1], other) || other == k {
      ListedInFrontOrLast(d, xs, other);
    }
    assert HeldListed(rows, d, xs, i) == if k in HeldRows(rows, d, i) then front[k := rows[k].weight] else front;
    if k in HeldRows(rows, d, i) {
      SumWith(front, k, rows[k].weight);
    }
  }

  /** What a worker owns of listed rows is the weight of those it holds. */
  lemma {:induction false} OwnedIsHeld(rows: map<Key, Row>, d: DeploymentId, xs: seq<Stored>, i: InstanceId)
    requires forall m, n :: 0 <= m < n < |xs| ==> xs[m].id != xs[n].id
    requires forall n :: 0 <= n < |xs| ==> Key(d, xs[n].id) in rows
    ensures Owned(rows, d, xs, i) == SumOf(HeldListed(rows, d, xs, i))
  {
    if xs == [] {
      assert HeldListed(rows, d, xs, i) == map[];
    } else {
      OwnedIsHeld(rows, d, xs[..|xs| - 1], i);
      assert !Listed(d, xs[..|xs| - 1], Key(d, xs[|xs| - 1].id));
      HeldListedLast(rows, d, xs, i);
    }
  }

  lemma {:induction false} LoadIsOwned(rows: map<Key, Row>, d: DeploymentId, xs: seq<Stored>, i: InstanceId)
    requires forall n :: 0 <= n < |xs| ==> Key(d, xs[n].id) in rows && rows[Key(d, xs[n].id)] == xs[n].row
    ensures SnapshotLoad(xs, i) == Owned(rows, d, xs, i)
  {
    if xs != [] {
      LoadIsOwned(rows, d, xs[..|xs| - 1], i);
    }
  }

  /** Read from the whole deployment, a worker's load is what it holds in the table. */
  lemma LoadIsOfTheTable(rows: map<Key, Row>, d: DeploymentId, xs: seq<Stored>, i: InstanceId)
    requires ReadFrom(rows, d, xs)
    ensures SnapshotLoad(xs, i) == SumOf(HeldRows(rows, d, i))
  {
    LoadIsOwned(rows, d, xs, i);
    OwnedIsHeld(rows, d, xs, i);
    assert HeldListed(rows, d, xs, i) == HeldRows(rows, d, i);
  }

  /**
   A pass that starts from what the workers hold ends with a load map that is at least what each of them then holds,
   and exactly that when no live worker's own lease had run out at the start.
   */
  lemma {:induction false} LoadsAreHoldings(p: Pass, d: DeploymentId, xs: seq<Stored>, live: seq<InstanceId>, seconds: int, i: InstanceId)
    requires live != [] && Snapshot(p.store, d, xs) && i in live
    requires forall j :: j in live ==> Load(p.load, j) == SumOf(HeldIn(xs, j))
    requires forall n :: 0 <= n < |xs| ==> xs[n].row.weight >= 0
    ensures var q := VisitAll(p, d, xs, live, seconds);
            && Load(q.load, i) >= SumOf(HeldListed(q.store.rows, d, xs, i))
            && ((forall n :: 0 <= n < |xs| && FreeOrLapsed(xs[n].row, p.store.now) && xs[n].row.owner.Some? ==> xs[n].row.owner.value !in live) ==>
                Load(q.load, i) == SumOf(HeldListed(q.store.rows, d, xs, i)))
  {
    forall j | j in live ensures Load(p.load, j) == SnapshotLoad(xs, j) {
      LoadIsWhatIsHeld(xs, j);
    }
    LoadMapIsOwnership(p, d, xs, live, seconds, i);
    OwnedIsHeld(VisitAll(p, d, xs, live, seconds).store.rows, d, xs, i);
    assert forall n :: 0 <= n < |xs| && ExpiredAlive(xs[n].row, p.store.now, live) ==>
             FreeOrLapsed(xs[n].row, p.store.now) && xs[n].row.owner.value in live;
  }

  // ---- what a pass hands out ----

  /** Free, or held under a lease that ran out. */
  predicate FreeOrLapsed(row: Row, now: int) {
    || row.status == Unassigned
    || ((row.status == Assigned || row.status == Running) && row.leaseExpiresAt.Some? && row.leaseExpiresAt.value < now)
  }

  /** The weights of the first `n` rows that a pass took and gave to this worker. */
  function GivenTo(xs: seq<Stored>, rows': map<Key, Row>, d: DeploymentId, now: int, n: nat, i: InstanceId): map<nat, int>
    requires n <= |xs|
  {
    map m: nat | m < n && FreeOrLapsed(xs[m].row, now) && Key(d, xs[m].id) in rows' && rows'[Key(d, xs[m].id)].owner == Some(i) :: xs[m].row.weight
  }

  /** Row `n` went to a worker that carried the least when its turn came, the first by id among those. */
  ghost predicate WentToLeast(base: InstanceId -> int, xs: seq<Stored>, rows': map<Key, Row>, d: DeploymentId, now: int,
                              n: nat, live: set<InstanceId>)
    requires n < |xs|
  {
    var k := Key(d, xs[n].id);
    && k in rows' && rows'[k].owner.Some?
    && var o := rows'[k].owner.value;
       && o in live
       && forall w :: w in live && w != o ==>
            var mine, theirs := base(o) + SumOf(GivenTo(xs, rows', d, now, n, o)), base(w) + SumOf(GivenTo(xs, rows', d, now, n, w));
            mine < theirs || (mine == theirs && Text.Precedes(o, w))
  }

  lemma GivenBefore(xs: seq<Stored>, rows: map<Key, Row>, rows': map<Key, Row>, d: DeploymentId, now: int, n: nat, i: InstanceId)
    requires n < |xs|
    requires forall m :: 0 <= m < |xs| - 1 ==>
               Key(d, xs[m].id) in rows && Key(d, xs[m].id) in rows' && rows'[Key(d, xs[m].id)] == rows[Key(d, xs[m].id)]
    ensures GivenTo(xs, rows', d, now, n, i) == GivenTo(xs[..|xs| - 1], rows, d, now, n, i)
  {
  }

  lemma GivenNow(xs: seq<Stored>, rows': map<Key, Row>, d: DeploymentId, now: int, i: InstanceId)
    requires xs != [] && Key(d, xs[|xs| - 1].id) in rows'
    ensures var n, row := |xs| - 1, xs[|xs| - 1].row;
            SumOf(GivenTo(xs, rows', d, now, |xs|, i)) == SumOf(GivenTo(xs, rows', d, now, n, i)) +
            if FreeOrLapsed(row, now) && rows'[Key(d, xs[n].id)].owner == Some(i) then row.weight else 0
  {
    var n: nat, row := |xs| - 1, xs[|xs| - 1].row;
    var before := GivenTo(xs, rows', d, now, n, i);
    if FreeOrLapsed(row, now) && rows'[Key(d, xs[n].id)].owner == Some(i) {
      SumWith(before, n, row.weight);
      assert GivenTo(xs, rows', d, now, |xs|, i) == before[n := row.weight];
    } else {
      assert GivenTo(xs, rows', d, now, |xs|, i) == before;
    }
  }

  /** The load map along a pass: what it started with and what the pass gave. */
  ghost predicate Carries(p: Pass, q: Pass, d: DeploymentId, xs: seq<Stored>, live: seq<InstanceId>) {
    forall i :: i in live ==> Load(q.load, i) == Load(p.load, i) + SumOf(GivenTo(xs, q.store.rows, d, p.store.now, |xs|, i))
  }

  lemma TakesIsFreeOrLapsed(row: Row, now: int)
    ensures Takes(row, now) <==> FreeOrLapsed(row, now)
  {
  }

  lemma NothingGiven(xs: seq<Stored>, rows': map<Key, Row>, d: DeploymentId, now: int, i: InstanceId)
    requires xs == []
    ensures SumOf(GivenTo(xs, rows', d, now, |xs|, i)) == 0
  {
    var none: map<nat, int> := map[];
    assert GivenTo(xs, rows', d, now, |xs|, i) == none && SumOf(none) == 0;
  }

  lemma {:induction false} PassCarries(p: Pass, d: DeploymentId, xs: seq<Stored>, live: seq<InstanceId>, seconds: int)
    requires live != [] && Snapshot(p.store, d, xs)
    ensures Carries(p, VisitAll(p, d, xs, live, seconds), d, xs, live)
  {
    if xs == [] {
      forall i ensures SumOf(GivenTo(xs, p.store.rows, d, p.store.now, |xs|, i)) == 0 {
        NothingGiven(xs, p.store.rows, d, p.store.now, i);
      }
    } else {
      var n, q := |xs| - 1, VisitAll(p, d, xs, live, seconds);
      PassCarries(p, d, xs[..n], live, seconds);
      forall i | i in live ensures Load(q.load, i) == Load(p.load, i) + SumOf(GivenTo(xs, q.store.rows, d, p.store.now, |xs|, i)) {
        CarriesOneMore(p, d, xs, live, seconds, i);
      }
    }
  }

  lemma {:induction false} CarriesOneMore(p: Pass, d: DeploymentId, xs: seq<Stored>, live: seq<InstanceId>, seconds: int, i: InstanceId)
    requires live != [] && xs != [] && Snapshot(p.store, d, xs) && i in live
    requires Carries(p, VisitAll(p, d, xs[..|xs| - 1], live, seconds), d, xs[..|xs| - 1], live)
    ensures var q := VisitAll(p, d, xs, live, seconds);
            Load(q.load, i) == Load(p.load, i) + SumOf(GivenTo(xs, q.store.rows, d, p.store.now, |xs|, i))
  {
    var n, q := |xs| - 1, VisitAll(p, d, xs, live, seconds);
    var mid, o := LastTurn(p, d, xs, live, seconds);
    LastGrant(mid, q, d, xs[n], live, seconds, o, i);
    GivenBefore(xs, mid.store.rows, q.store.rows, d, p.store.now, n, i);
    GivenNow(xs, q.store.rows, d, p.store.now, i);
    assert Load(mid.load, i) == Load(p.load, i) + SumOf(GivenTo(xs[..n], mid.store.rows, d, p.store.now, |xs[..n]|, i));
  }

  lemma LastGrant(mid: Pass, q: Pass, d: DeploymentId, x: Stored, live: seq<InstanceId>, seconds: int, o: InstanceId, i: InstanceId)
    requires Turn(mid, q, d, x, live, seconds, o) && Key(d, x.id) in mid.store.rows && i in live
    ensures Key(d, x.id) in q.store.rows
    ensures Load(q.load, i) == Load(mid.load, i) +
            if FreeOrLapsed(x.row, mid.store.now) && q.store.rows[Key(d, x.id)].owner == Some(i) then x.row.weight else 0
    ensures forall k :: k in mid.store.rows && k != Key(d, x.id) ==> k in q.store.rows && q.store.rows[k] == mid.store.rows[k]
  {
    TakesIsFreeOrLapsed(x.row, mid.store.now);
  }

  /** The choice of the loop, with the ties resolved. */
  lemma ChosenIsFirst(load: LoadMap, live: seq<InstanceId>, w: InstanceId)
    requires live != [] && w in live && w != LeastLoaded(load, live)
    ensures var o := LeastLoaded(load, live);
            o in live && (Load(load, o) < Load(load, w) || (Load(load, o) == Load(load, w) && Text.Precedes(o, w)))
  {
    LeastLoadedIsLeast(load, live);
    Text.PrecedesIsTotal(LeastLoaded(load, live), w);
  }

  lemma LastWentToLeast(p: Pass, d: DeploymentId, xs: seq<Stored>, live: seq<InstanceId>, seconds: int)
    requires live != [] && xs != [] && Snapshot(p.store, d, xs) && FreeOrLapsed(xs[|xs| - 1].row, p.store.now)
    ensures WentToLeast(i => Load(p.load, i), xs, VisitAll(p, d, xs, live, seconds).store.rows, d, p.store.now, |xs| - 1,
                        set i | i in live)
  {
    var n, q := |xs| - 1, VisitAll(p, d, xs, live, seconds);
    var mid, _ := LastTurn(p, d, xs, live, seconds);
    PassCarries(p, d, xs[..n], live, seconds);
    TakesIsFreeOrLapsed(xs[n].row, p.store.now);
    VisitOne(mid, d, xs[n], live, seconds);
    var o := LeastLoaded(mid.load, live);
    LeastLoadedIsLeast(mid.load, live);
    GivenBefore(xs, mid.store.rows, q.store.rows, d, p.store.now, n, o);
    forall w | w in live && w != o
      ensures var mine, theirs := Load(p.load, o) + SumOf(GivenTo(xs, q.store.rows, d, p.store.now, n, o)),
                                  Load(p.load, w) + SumOf(GivenTo(xs, q.store.rows, d, p.store.now, n, w));
              mine < theirs || (mine == theirs && Text.Precedes(o, w))
    {
      GivenBefore(xs, mid.store.rows, q.store.rows, d, p.store.now, n, w);
      ChosenIsFirst(mid.load, live, w);
    }
  }

  lemma SameBase(base: InstanceId -> int, base': InstanceId -> int, xs: seq<Stored>, rows': map<Key, Row>, d: DeploymentId, now: int,
                 n: nat, live: set<InstanceId>)
    requires n < |xs| && WentToLeast(base, xs, rows', d, now, n, live) && forall i :: i in live ==> base(i) == base'(i)
    ensures WentToLeast(base', xs, rows', d, now, n, live)
  {
  }

  /** Every taken row of a pass went to a worker that carried the least. */
  lemma {:induction false} PassIsGreedy(p: Pass, d: DeploymentId, xs: seq<Stored>, live: seq<InstanceId>, seconds: int, n: nat)
    requires live != [] && Snapshot(p.store, d, xs) && n < |xs| && FreeOrLapsed(xs[n].row, p.store.now)
    ensures WentToLeast(i => Load(p.load, i), xs, VisitAll(p, d, xs, live, seconds).store.rows, d, p.store.now, n, set i | i in live)
  {
    var last := |xs| - 1;
    if n == last {
      LastWentToLeast(p, d, xs, live, seconds);
    } else {
      var mid, _ := LastTurn(p, d, xs, live, seconds);
      PassIsGreedy(p, d, xs[..last], live, seconds, n);
      WentBefore(i => Load(p.load, i), xs, mid.store.rows, VisitAll(p, d, xs, live, seconds).store.rows, d, p.store.now, n, set i | i in live);
    }
  }

  lemma WentBefore(base: InstanceId -> int, xs: seq<Stored>, rows: map<Key, Row>, rows': map<Key, Row>, d: DeploymentId, now: int, n: nat,
                   live: set<InstanceId>)
    requires n < |xs| - 1 && WentToLeast(base, xs[..|xs| - 1], rows, d, now, n, live)
    requires forall m :: 0 <= m < |xs| - 1 ==>
               Key(d, xs[m].id) in rows && Key(d, xs[m].id) in rows' && rows'[Key(d, xs[m].id)] == rows[Key(d, xs[m].id)]
    ensures WentToLeast(base, xs, rows', d, now, n, live)
  {
    forall i ensures GivenTo(xs, rows', d, now, n, i) == GivenTo(xs[..|xs| - 1], rows, d, now, n, i) {
      GivenBefore(xs, rows, rows', d, now, n, i);
    }
    assert xs[..|xs| - 1][n] == xs[n];
  }
}
