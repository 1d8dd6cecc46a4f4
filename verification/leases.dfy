/** Lease safety over every run of the continuous tables. */
module Leases {
  import opened Wrappers
  import opened ContinuousTables

  /** Every issued handle is at or below its row's token, a token has one handle, and an owner holds the current one. */
  ghost predicate LeaseInv(s: Store) {
    && (forall h :: h in s.issued ==> h.key in s.rows && 1 <= h.token <= s.rows[h.key].token)
    && (forall g, h :: g in s.issued && h in s.issued && g.key == h.key && g.token == h.token ==> g == h)
    && (forall k :: k in s.rows && s.rows[k].owner.Some? ==> LeaseHandle(k, s.rows[k].owner.value, s.rows[k].token) in s.issued)
  }

  /** How one transaction may move a row, as far as leases are concerned. */
  ghost predicate RowMoves(r: Row, r': Row, k: Key, now: int, issued': set<LeaseHandle>) {
    || (r'.token == r.token && r'.owner == r.owner && (r'.leaseExpiresAt == r.leaseExpiresAt || Unexpired(r, now)))
    || (r'.token == r.token && r'.owner.None?)
    || (r'.token == r.token + 1 && r'.owner.Some? && LeaseHandle(k, r'.owner.value, r'.token) in issued')
  }

  /** Owned, leased and assigned-or-running are the same thing. */
  predicate Coherent(r: Row) {
    (r.owner.Some? <==> r.leaseExpiresAt.Some?) && (r.owner.Some? <==> HeldStatus(r.status))
  }

  /** Position `i` is the last that names this partition. */
  predicate LastNamed(desired: seq<Partition>, id: PartitionId, i: nat) {
    i < |desired| && desired[i].id == id && forall j :: i < j < |desired| ==> desired[j].id != id
  }

  /** The row carries the weight and the payload of this partition; what it had of an owner, a token and a lease stays. */
  predicate CarriesOver(rows: map<Key, Row>, rows': map<Key, Row>, k: Key, p: Partition) {
    && k in rows'
    && rows'[k] == if k in rows
                   then Row(if rows[k].status == Inactive then Unassigned else rows[k].status, p.weight, p.payload,
                            rows[k].owner, rows[k].token, rows[k].leaseExpiresAt)
                   else Row(Unassigned, p.weight, p.payload, None, 0, None)
  }

  /** A wanted row carries what was discovered last for it, and every other row stays. */
  ghost predicate Upserted(rows: map<Key, Row>, rows': map<Key, Row>, d: DeploymentId, desired: seq<Partition>, k: Key) {
    if k.deployment == d && exists i: nat :: LastNamed(desired, k.partition, i)
    then exists i: nat :: LastNamed(desired, k.partition, i) && CarriesOver(rows, rows', k, desired[i])
    else (k in rows' <==> k in rows) && (k in rows ==> rows'[k] == rows[k])
  }

  lemma {:induction false} SomeLastNamed(desired: seq<Partition>, id: PartitionId)
    ensures Wanted(desired, id) <==> exists i: nat :: LastNamed(desired, id, i)
  {
    if desired != [] {
      var n := |desired| - 1;
      SomeLastNamed(desired[..n], id);
      if desired[n].id == id {
        assert LastNamed(desired, id, n);
      } else if Wanted(desired, id) {
        var j :| 0 <= j < |desired| && desired[j].id == id;
        assert desired[..n][j].id == id;
        var i: nat :| LastNamed(desired[..n], id, i);
        assert LastNamed(desired, id, i);
      }
      if exists i: nat :: LastNamed(desired, id, i) {
        var i: nat :| LastNamed(desired, id, i);
        assert desired[i].id == id;
      }
    }
  }

  lemma LastNamedInFront(desired: seq<Partition>, id: PartitionId, i: nat)
    requires desired != [] && desired[|desired| - 1].id != id
    ensures LastNamed(desired, id, i) <==> LastNamed(desired[..|desired| - 1], id, i)
  {
  }

  lemma {:induction false} UpsertAllRow(rows: map<Key, Row>, d: DeploymentId, desired: seq<Partition>, k: Key)
    ensures Upserted(rows, UpsertAll(rows, d, desired), d, desired, k)
  {
    if desired != [] {
      var n := |desired| - 1;
      UpsertAllRow(rows, d, desired[..n], k);
      UpsertLastRow(rows, UpsertAll(rows, d, desired[..n]), d, desired, k);
    }
  }

  lemma UpsertLastRow(rows: map<Key, Row>, mid: map<Key, Row>, d: DeploymentId, desired: seq<Partition>, k: Key)
    requires desired != [] && Upserted(rows, mid, d, desired[..|desired| - 1], k)
    ensures Upserted(rows, Upsert(mid, d, desired[|desired| - 1]), d, desired, k)
  {
    var n := |desired| - 1;
    if k == Key(d, desired[n].id) {
      assert LastNamed(desired, k.partition, n);
    } else if k.deployment == d {
      forall i: nat ensures LastNamed(desired, k.partition, i) <==> LastNamed(desired[..n], k.partition, i) {
        LastNamedInFront(desired, k.partition, i);
      }
    }
  }

  /** A whole sync: as above, and rows discovery stopped returning lose their owner and their lease. */
  ghost predicate Synced(rows: map<Key, Row>, rows': map<Key, Row>, d: DeploymentId, desired: seq<Partition>, k: Key) {
    var retired := && k in rows && k.deployment == d && desired != [] && (forall i :: 0 <= i < |desired| ==> desired[i].id != k.partition)
                   && rows[k].status in {Unassigned, Assigned, Running};
    if retired then k in rows' && rows'[k] == Row(Inactive, rows[k].weight, rows[k].payload, None, rows[k].token, None)
    else Upserted(rows, rows', d, desired, k)
  }

  lemma {:induction false} SyncRow(rows: map<Key, Row>, d: DeploymentId, desired: seq<Partition>, k: Key)
    ensures Synced(rows, SyncPartitions(rows, d, desired), d, desired, k)
  {
    UpsertAllRow(rows, d, desired, k);
    SomeLastNamed(desired, k.partition);
  }

  lemma SyncMovesRow(s: Store, d: DeploymentId, desired: seq<Partition>, k: Key)
    ensures var s' := Step(s, Sync(d, desired));
            && (k in s.rows ==> k in s'.rows && RowMoves(s.rows[k], s'.rows[k], k, s.now, s'.issued))
            && (k in s'.rows && k !in s.rows ==> s'.rows[k].owner.None?)
            && (k in s.rows && Coherent(s.rows[k]) ==> Coherent(s'.rows[k]))
            && (k in s'.rows && k !in s.rows ==> Coherent(s'.rows[k]))
  {
    SyncRow(s.rows, d, desired, k);
  }

  lemma StepMovesRows(s: Store, e: Event)
    ensures var s' := Step(s, e);
            && s.now <= s'.now && s.issued <= s'.issued
            && (forall k :: k in s.rows ==> k in s'.rows && RowMoves(s.rows[k], s'.rows[k], k, s.now, s'.issued))
            && (forall k :: k in s'.rows && k !in s.rows ==> s'.rows[k].owner.None?)
            && (forall h :: h in s'.issued && h !in s.issued ==>
                h.key in s.rows && h.token == s.rows[h.key].token + 1 == s'.rows[h.key].token)
            && (forall g, h :: g in s'.issued && h in s'.issued && g !in s.issued && h !in s.issued ==> g == h)
  {
    if e.Sync? {
      forall k { SyncMovesRow(s, e.deployment, e.desired, k); }
    }
  }

  lemma LeaseInvStep(s: Store, e: Event)
    requires LeaseInv(s)
    ensures LeaseInv(Step(s, e))
  {
    StepMovesRows(s, e);
  }

  lemma {:induction false} RunKeepsLeases(s: Store, es: seq<Event>)
    requires LeaseInv(s)
    ensures LeaseInv(Run(s, es)) && s.issued <= Run(s, es).issued && s.now <= Run(s, es).now
  {
    if es != [] {
      RunKeepsLeases(s, es[..|es| - 1]);
      LeaseInvStep(Run(s, es[..|es| - 1]), es[|es| - 1]);
      StepMovesRows(Run(s, es[..|es| - 1]), es[|es| - 1]);
    }
  }

  lemma RefusedStaysRefused(s: Store, e: Event, h: LeaseHandle)
    requires LeaseInv(s) && h in s.issued && !Accepts(s, h)
    ensures !Accepts(Step(s, e), h)
  {
    StepMovesRows(s, e);
    LeaseInvStep(s, e);
  }

  lemma {:induction false} RefusedThroughRun(s: Store, es: seq<Event>, h: LeaseHandle)
    requires LeaseInv(s) && h in s.issued && !Accepts(s, h)
    ensures !Accepts(Run(s, es), h)
  {
    if es != [] {
      RefusedThroughRun(s, es[..|es| - 1], h);
      RunKeepsLeases(s, es[..|es| - 1]);
      RefusedStaysRefused(Run(s, es[..|es| - 1]), es[|es| - 1], h);
    }
  }

  /**
   Leases are one-way. A handle that was ever returned and that emit would refuse now, whether its token moved,
   it was released, its partition was retired or its time ran out, is refused in every later state.
   */
  lemma {:induction false} LeasesAreOneWay(past: seq<Event>, future: seq<Event>, h: LeaseHandle)
    requires h in Run(Init, past).issued && !Accepts(Run(Init, past), h)
    ensures !Accepts(Run(Run(Init, past), future), h)
  {
    RunKeepsLeases(Init, past);
    RefusedThroughRun(Run(Init, past), future, h);
  }

  /** Each token of a partition is granted once, to one owner, and only the newest can still be accepted. */
  lemma {:induction false} OneOwnerPerToken(es: seq<Event>, g: LeaseHandle, h: LeaseHandle)
    requires g in Run(Init, es).issued && h in Run(Init, es).issued && g.key == h.key
    ensures g.token == h.token ==> g == h
    ensures Accepts(Run(Init, es), g) && Accepts(Run(Init, es), h) ==> g == h
    ensures Accepts(Run(Init, es), g) ==> h.token <= g.token
  {
    RunKeepsLeases(Init, es);
  }

  /** Fencing tokens never go down, and rows are never deleted. */
  lemma {:induction false} TokensNeverGoDown(s: Store, es: seq<Event>, k: Key)
    requires k in s.rows
    ensures k in Run(s, es).rows && s.rows[k].token <= Run(s, es).rows[k].token
  {
    if es != [] {
      TokensNeverGoDown(s, es[..|es| - 1], k);
      StepMovesRows(Run(s, es[..|es| - 1]), es[|es| - 1]);
    }
  }

  // ---- ownership and status ----

  ghost predicate RowInv(s: Store) {
    forall k :: k in s.rows ==> Coherent(s.rows[k])
  }

  /** The status write is the one transaction that could break it: it must write assigned or running, or miss. */
  predicate KeepsStatusInStep(s: Store, e: Event) {
    e.SetStatus? && Matches(s.rows, e.lease) ==> HeldStatus(e.status)
  }

  lemma {:induction false} CoherenceStep(s: Store, e: Event)
    requires RowInv(s)
    ensures RowInv(Step(s, e)) <==> KeepsStatusInStep(s, e)
  {
    var s' := Step(s, e);
    if e.Sync? {
      forall k { SyncMovesRow(s, e.deployment, e.desired, k); }
    } else if e.SetStatus? && Matches(s.rows, e.lease) {
      assert Coherent(s.rows[e.lease.key]);
      assert s'.rows[e.lease.key].status == e.status;
    }
  }

  /** As long as supervisors only report `running`, ownership, lease time and status agree in every reachable row. */
  lemma {:induction false} RowsStayCoherent(es: seq<Event>)
    requires forall i :: 0 <= i < |es| && es[i].SetStatus? ==> HeldStatus(es[i].status)
    ensures RowInv(Run(Init, es))
  {
    if es != [] {
      assert forall i :: 0 <= i < |es| - 1 ==> es[..|es| - 1][i] == es[i];
      RowsStayCoherent(es[..|es| - 1]);
      CoherenceStep(Run(Init, es[..|es| - 1]), es[|es| - 1]);
    }
  }
}
