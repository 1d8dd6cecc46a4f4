/**
 How well the pass balances (control/reconciler.py): its load map is the true ownership weight, its spread only
 shrinks towards the heaviest grant, and from scratch it meets Graham's list-scheduling bound.
 */
module Balance {
  import opened ContinuousTables
  import opened Scheduling

  // ---- sums over the live workers ----

  lemma {:induction false} TotalUpdate(load: LoadMap, live: seq<InstanceId>, o: InstanceId, w: int)
    requires Distinct(live)
    ensures Total(load[o := Load(load, o) + w], live) == Total(load, live) + if o in live then w else 0
  {
    if live != [] {
      TotalUpdate(load, live[..|live| - 1], o, w);
    }
  }

  lemma {:induction false} TotalAtLeast(load: LoadMap, live: seq<InstanceId>, c: int)
    requires forall i :: i in live ==> c <= Load(load, i)
    ensures |live| * c <= Total(load, live)
  {
    if live != [] {
      TotalAtLeast(load, live[..|live| - 1], c);
    }
  }

  lemma {:induction false} TotalAtMost(load: LoadMap, live: seq<InstanceId>, c: int)
    requires forall i :: i in live ==> Load(load, i) <= c
    ensures Total(load, live) <= |live| * c
  {
    if live != [] {
      TotalAtMost(load, live[..|live| - 1], c);
    }
  }

  // ---- the load map is the ownership weight ----

  /** A live worker's row that its own lease time has run out of; the pass reassigns it without unloading the old owner. */
  predicate ExpiredAlive(row: Row, now: int, live: seq<InstanceId>) {
    HeldStatus(row.status) && row.owner.Some? && row.owner.value in live && Takes(row, now)
  }

  lemma {:induction false} OwnedIsLocal(rows: map<Key, Row>, rows': map<Key, Row>, d: DeploymentId, xs: seq<Stored>,
                                        i: InstanceId)
    requires forall j :: 0 <= j < |xs| ==>
      Key(d, xs[j].id) in rows && Key(d, xs[j].id) in rows' && rows[Key(d, xs[j].id)] == rows'[Key(d, xs[j].id)]
    ensures Owned(rows, d, xs, i) == Owned(rows', d, xs, i)
  {
    if xs != [] {
      OwnedIsLocal(rows, rows', d, xs[..|xs| - 1], i);
    }
  }

  lemma {:induction false} LoadFollowsOwnership(p: Pass, d: DeploymentId, xs: seq<Stored>, live: seq<InstanceId>,
                                                seconds: int, i: InstanceId)
    requires live != [] && Snapshot(p.store, d, xs) && i in live
    requires forall j :: 0 <= j < |xs| ==> xs[j].row.weight >= 0
    ensures forall j :: 0 <= j < |xs| ==> Key(d, xs[j].id) in VisitAll(p, d, xs, live, seconds).store.rows
    ensures var q := VisitAll(p, d, xs, live, seconds);
            var gained := Owned(q.store.rows, d, xs, i) - SnapshotLoad(xs, i);
            && Load(q.load, i) - Load(p.load, i) >= gained
            && ((forall j :: 0 <= j < |xs| ==> !ExpiredAlive(xs[j].row, p.store.now, live)) ==>
                Load(q.load, i) - Load(p.load, i) == gained)
  {
    SnapshotKeys(p, d, xs, live, seconds);
    if xs != [] {
      var n := |xs| - 1;
      var mid, o := LastTurn(p, d, xs, live, seconds);
      assert forall j :: 0 <= j < n ==> xs[..n][j] == xs[j];
      LoadFollowsOwnership(p, d, xs[..n], live, seconds, i);
      OwnedIsLocal(mid.store.rows, VisitAll(p, d, xs, live, seconds).store.rows, d, xs[..n], i);
      OwnershipTurn(mid, VisitAll(p, d, xs, live, seconds), d, xs[n], live, seconds, o, i);
    }
  }

  /** One turn loads a worker by at least what it gains, and exactly so unless the worker's own lease had run out. */
  lemma OwnershipTurn(mid: Pass, q: Pass, d: DeploymentId, x: Stored, live: seq<InstanceId>, seconds: int,
                      o: InstanceId, i: InstanceId)
    requires Turn(mid, q, d, x, live, seconds, o) && i in live && x.row.weight >= 0
    ensures Key(d, x.id) in q.store.rows
    ensures var gained := Weight(q.store.rows[Key(d, x.id)], i) - Weight(x.row, i);
            && Load(q.load, i) - Load(mid.load, i) >= gained
            && (!ExpiredAlive(x.row, mid.store.now, live) ==> Load(q.load, i) - Load(mid.load, i) == gained)
  {
  }

  lemma SnapshotKeys(p: Pass, d: DeploymentId, xs: seq<Stored>, live: seq<InstanceId>, seconds: int)
    requires live != [] && Snapshot(p.store, d, xs)
    ensures forall j :: 0 <= j < |xs| ==> Key(d, xs[j].id) in VisitAll(p, d, xs, live, seconds).store.rows
  {
    VisitAllRows(p, d, xs, live, seconds);
    assert forall j :: 0 <= j < |xs| ==> Visited(p, VisitAll(p, d, xs, live, seconds), d, xs[j], live, seconds);
  }

  /** `_load_map`: a live worker's load is the weight of the snapshot rows it holds. */
  ghost predicate IsLoadMap(load: LoadMap, xs: seq<Stored>, live: seq<InstanceId>) {
    forall i :: i in live ==> Load(load, i) == SnapshotLoad(xs, i)
  }

  /**
   After a pass the load map is at least every live worker's true ownership weight, and equals it when no live
   worker's own lease had run out at the start.
   */
  lemma {:induction false} LoadMapIsOwnership(p: Pass, d: DeploymentId, xs: seq<Stored>, live: seq<InstanceId>,
                                              seconds: int, i: InstanceId)
    requires live != [] && Snapshot(p.store, d, xs) && i in live && IsLoadMap(p.load, xs, live)
    requires forall j :: 0 <= j < |xs| ==> xs[j].row.weight >= 0
    ensures var q := VisitAll(p, d, xs, live, seconds);
            && (forall j :: 0 <= j < |xs| ==> Key(d, xs[j].id) in q.store.rows)
            && Load(q.load, i) >= Owned(q.store.rows, d, xs, i)
            && ((forall j :: 0 <= j < |xs| ==> !ExpiredAlive(xs[j].row, p.store.now, live)) ==>
                Load(q.load, i) == Owned(q.store.rows, d, xs, i))
  {
    LoadFollowsOwnership(p, d, xs, live, seconds, i);
  }

  // ---- spread ----

  ghost predicate SpreadAtMost(load: LoadMap, live: seq<InstanceId>, s: int) {
    forall i, j :: i in live && j in live ==> Load(load, i) - Load(load, j) <= s
  }

  /** The spread ends at most at the larger of the starting spread and the heaviest weight the pass granted. */
  lemma {:induction false} SpreadIsKept(p: Pass, d: DeploymentId, xs: seq<Stored>, live: seq<InstanceId>,
                                        seconds: int, s: int)
    requires live != [] && Snapshot(p.store, d, xs) && SpreadAtMost(p.load, live, s)
    requires forall j :: 0 <= j < |xs| && Takes(xs[j].row, p.store.now) ==> 0 <= xs[j].row.weight <= s
    ensures SpreadAtMost(VisitAll(p, d, xs, live, seconds).load, live, s)
  {
    if xs != [] {
      var n := |xs| - 1;
      var _, _ := LastTurn(p, d, xs, live, seconds);
      SpreadIsKept(p, d, xs[..n], live, seconds, s);
    }
  }

  // ---- Graham's bound ----

  /** The weight a row brings to a pass that starts from scratch. */
  function Demand(x: Stored): int {
    if x.row.status.Unassigned? then x.row.weight else 0
  }

  function TotalDemand(xs: seq<Stored>): int {
    if xs == [] then 0 else TotalDemand(xs[..|xs| - 1]) + Demand(xs[|xs| - 1])
  }

  function MaxDemand(xs: seq<Stored>): int {
    if xs == [] then 0
    else
      var m := MaxDemand(xs[..|xs| - 1]);
      if Demand(xs[|xs| - 1]) > m then Demand(xs[|xs| - 1]) else m
  }

  /** Nobody owns anything: every row is unassigned or inactive. */
  predicate FromScratch(xs: seq<Stored>) {
    forall j :: 0 <= j < |xs| ==> (xs[j].row.status.Unassigned? || xs[j].row.status.Inactive?) && xs[j].row.weight >= 1
  }

  lemma DemandsAreSmall(xs: seq<Stored>)
    requires forall j :: 0 <= j < |xs| ==> Demand(xs[j]) >= 0
    ensures MaxDemand(xs) >= 0
    ensures forall j :: 0 <= j < |xs| ==> Demand(xs[j]) <= MaxDemand(xs)
  {
    if xs != [] {
      DemandsAreSmall(xs[..|xs| - 1]);
    }
  }

  predicate NearAverage(load: LoadMap, live: seq<InstanceId>, heaviest: int, i: InstanceId) {
    |live| * Load(load, i) <= Total(load, live) + (|live| - 1) * heaviest
  }

  lemma GrahamStep(m: int, least: int, w: int, total: int, heaviest: int)
    requires m >= 1 && m * least <= total && 0 <= w <= heaviest
    ensures m * (least + w) <= total + w + (m - 1) * heaviest
  {
    assert m * (least + w) == m * least + w + (m - 1) * w;
    assert (m - 1) * w <= (m - 1) * heaviest;
  }

  /** Adding a weight to a least loaded worker keeps every worker near the average. */
  lemma GrahamTurn(load: LoadMap, live: seq<InstanceId>, o: InstanceId, w: int, heaviest: int, i: InstanceId)
    requires Distinct(live) && o in live && i in live && 0 <= w <= heaviest
    requires forall j :: j in live ==> Load(load, o) <= Load(load, j)
    requires NearAverage(load, live, heaviest, i)
    ensures var after := load[o := Load(load, o) + w];
            Total(after, live) == Total(load, live) + w && NearAverage(after, live, heaviest, i)
  {
    TotalUpdate(load, live, o, w);
    TotalAtLeast(load, live, Load(load, o));
    if i == o {
      GrahamStep(|live|, Load(load, o), w, Total(load, live), heaviest);
    }
  }

  lemma NobodyLoaded(load: LoadMap, live: seq<InstanceId>, heaviest: int, i: InstanceId)
    requires i in live && heaviest >= 0 && forall j :: j in live ==> Load(load, j) == 0
    ensures Total(load, live) == 0 && NearAverage(load, live, heaviest, i)
  {
    TotalAtLeast(load, live, 0);
    TotalAtMost(load, live, 0);
    assert (|live| - 1) * heaviest >= 0;
  }

  /** One turn from scratch: a demanded row adds its weight to a least loaded worker, any other row adds nothing. */
  lemma GrahamLastTurn(mid: Pass, q: Pass, d: DeploymentId, x: Stored, live: seq<InstanceId>, seconds: int,
                       o: InstanceId, heaviest: int, i: InstanceId)
    requires Distinct(live) && i in live && Turn(mid, q, d, x, live, seconds, o)
    requires (x.row.status.Unassigned? || x.row.status.Inactive?) && 1 <= x.row.weight && Demand(x) <= heaviest
    requires NearAverage(mid.load, live, heaviest, i)
    ensures Total(q.load, live) == Total(mid.load, live) + Demand(x) && NearAverage(q.load, live, heaviest, i)
  {
    if Takes(x.row, mid.store.now) {
      GrahamTurn(mid.load, live, o, x.row.weight, heaviest, i);
    }
  }

  /** The bound along the pass: no worker is more than the largest weight above the average. */
  lemma {:induction false} GrahamAlongThePass(p: Pass, d: DeploymentId, xs: seq<Stored>, live: seq<InstanceId>,
                                              seconds: int, heaviest: int, i: InstanceId)
    requires live != [] && Distinct(live) && i in live && Snapshot(p.store, d, xs) && FromScratch(xs)
    requires forall j :: j in live ==> Load(p.load, j) == 0
    requires heaviest >= 0 && forall j :: 0 <= j < |xs| ==> Demand(xs[j]) <= heaviest
    ensures var q := VisitAll(p, d, xs, live, seconds);
            Total(q.load, live) == TotalDemand(xs) && NearAverage(q.load, live, heaviest, i)
  {
    if xs == [] {
      NobodyLoaded(p.load, live, heaviest, i);
    } else {
      var n := |xs| - 1;
      var mid, o := LastTurn(p, d, xs, live, seconds);
      assert forall j :: 0 <= j < n ==> xs[..n][j] == xs[j];
      GrahamAlongThePass(p, d, xs[..n], live, seconds, heaviest, i);
      GrahamLastTurn(mid, VisitAll(p, d, xs, live, seconds), d, xs[n], live, seconds, o, heaviest, i);
    }
  }

  /** Any other way to hand the demanded partitions to live workers, and what it makes a worker carry. */
  function Burden(xs: seq<Stored>, plan: PartitionId -> InstanceId): LoadMap {
    if xs == [] then map[]
    else
      var b := Burden(xs[..|xs| - 1], plan);
      var o := plan(xs[|xs| - 1].id);
      b[o := Load(b, o) + Demand(xs[|xs| - 1])]
  }

  lemma {:induction false} BurdenIsTheDemand(xs: seq<Stored>, plan: PartitionId -> InstanceId, live: seq<InstanceId>)
    requires Distinct(live) && forall j :: 0 <= j < |xs| ==> plan(xs[j].id) in live && Demand(xs[j]) >= 0
    ensures Total(Burden(xs, plan), live) == TotalDemand(xs)
    ensures forall i :: i in Burden(xs, plan) ==> Burden(xs, plan)[i] >= 0
    ensures forall j :: 0 <= j < |xs| ==> Demand(xs[j]) <= Load(Burden(xs, plan), plan(xs[j].id))
  {
    if xs == [] {
      TotalAtLeast(map[], live, 0);
      TotalAtMost(map[], live, 0);
    } else {
      var n := |xs| - 1;
      assert forall j :: 0 <= j < n ==> xs[..n][j] == xs[j];
      BurdenIsTheDemand(xs[..n], plan, live);
      TotalUpdate(Burden(xs[..n], plan), live, plan(xs[n].id), Demand(xs[n]));
      forall j | 0 <= j < |xs| ensures Demand(xs[j]) <= Load(Burden(xs, plan), plan(xs[j].id)) {
        if j < n {
          assert xs[..n][j] == xs[j];
        }
      }
    }
  }

  lemma {:induction false} MaxDemandIsSome(xs: seq<Stored>)
    ensures MaxDemand(xs) == 0 || exists j :: 0 <= j < |xs| && Demand(xs[j]) == MaxDemand(xs)
  {
    if xs != [] {
      var n := |xs| - 1;
      MaxDemandIsSome(xs[..n]);
      if MaxDemand(xs[..n]) == MaxDemand(xs) && MaxDemand(xs) != 0 {
        var j :| 0 <= j < n && Demand(xs[..n][j]) == MaxDemand(xs[..n]);
        assert xs[j] == xs[..n][j];
      } else {
        assert Demand(xs[n]) == MaxDemand(xs) || MaxDemand(xs) == 0;
      }
    }
  }

  /**
   Graham's bound. From scratch with m live workers, what any worker ends up owning times m is at most the total
   weight plus m-1 times the heaviest weight. So it is at most (2 - 1/m) times the heaviest worker of any other
   assignment of the same partitions to the same workers: `cap` is any bound on that assignment's workers.
   */
  lemma {:induction false} GrahamBound(p: Pass, d: DeploymentId, xs: seq<Stored>, live: seq<InstanceId>, seconds: int,
                                       plan: PartitionId -> InstanceId, cap: int, i: InstanceId)
    requires live != [] && Distinct(live) && i in live && Snapshot(p.store, d, xs) && FromScratch(xs)
    requires IsLoadMap(p.load, xs, live)
    requires forall j :: 0 <= j < |xs| ==> plan(xs[j].id) in live
    requires forall w :: w in live ==> Load(Burden(xs, plan), w) <= cap
    ensures var q := VisitAll(p, d, xs, live, seconds);
            && (forall j :: 0 <= j < |xs| ==> Key(d, xs[j].id) in q.store.rows)
            && |live| * Owned(q.store.rows, d, xs, i) <= TotalDemand(xs) + (|live| - 1) * MaxDemand(xs)
            && |live| * Owned(q.store.rows, d, xs, i) <= (2 * |live| - 1) * cap
  {
    DemandsAreSmall(xs);
    ScratchIsUnloaded(xs, live);
    GrahamAlongThePass(p, d, xs, live, seconds, MaxDemand(xs), i);
    LoadMapIsOwnership(p, d, xs, live, seconds, i);
    NoAssignmentIsLight(xs, plan, live, cap, i);
    CapsAddUp(|live|, TotalDemand(xs), MaxDemand(xs), cap);
  }

  lemma CapsAddUp(m: int, total: int, heaviest: int, cap: int)
    requires m >= 1 && total <= m * cap && heaviest <= cap
    ensures total + (m - 1) * heaviest <= (2 * m - 1) * cap
  {
    assert (m - 1) * heaviest <= (m - 1) * cap;
    assert m * cap + (m - 1) * cap == (2 * m - 1) * cap;
  }

  /** Every assignment's heaviest worker carries the average and the heaviest partition. */
  lemma NoAssignmentIsLight(xs: seq<Stored>, plan: PartitionId -> InstanceId, live: seq<InstanceId>, cap: int,
                            i: InstanceId)
    requires Distinct(live) && i in live && forall j :: 0 <= j < |xs| ==> plan(xs[j].id) in live && Demand(xs[j]) >= 0
    requires forall w :: w in live ==> Load(Burden(xs, plan), w) <= cap
    ensures TotalDemand(xs) <= |live| * cap
    ensures MaxDemand(xs) <= cap
  {
    BurdenIsTheDemand(xs, plan, live);
    TotalAtMost(Burden(xs, plan), live, cap);
    MaxDemandIsSome(xs);
    if MaxDemand(xs) == 0 {
      assert 0 <= Load(Burden(xs, plan), i) <= cap;
    } else {
      var j :| 0 <= j < |xs| && Demand(xs[j]) == MaxDemand(xs);
      assert Demand(xs[j]) <= Load(Burden(xs, plan), plan(xs[j].id));
    }
  }

  lemma {:induction false} ScratchIsUnloaded(xs: seq<Stored>, live: seq<InstanceId>)
    requires FromScratch(xs)
    ensures forall i :: i in live ==> SnapshotLoad(xs, i) == 0
  {
    if xs != [] {
      ScratchIsUnloaded(xs[..|xs| - 1], live);
    }
  }

  /** With unit weights a pass from scratch leaves any two live workers at most one partition apart. */
  lemma {:induction false} UnitWeightsSpreadEvenly(p: Pass, d: DeploymentId, xs: seq<Stored>, live: seq<InstanceId>,
                                                   seconds: int, i: InstanceId, j: InstanceId)
    requires live != [] && Snapshot(p.store, d, xs) && FromScratch(xs) && i in live && j in live
    requires IsLoadMap(p.load, xs, live)
    requires forall k :: 0 <= k < |xs| ==> xs[k].row.weight == 1
    ensures var q := VisitAll(p, d, xs, live, seconds);
            && (forall k :: 0 <= k < |xs| ==> Key(d, xs[k].id) in q.store.rows)
            && Owned(q.store.rows, d, xs, i) - Owned(q.store.rows, d, xs, j) <= 1
  {
    ScratchIsUnloaded(xs, live);
    LoadMapIsOwnership(p, d, xs, live, seconds, i);
    LoadMapIsOwnership(p, d, xs, live, seconds, j);
    SpreadIsKept(p, d, xs, live, seconds, 1);
  }
}
