/**
 Whom a reconcile of the continuous kit chooses (testing/continuous.py), told by the partitions alone: what an instance
 holds is summed over the deployment, each partition that needs a holder goes to an instance that holds the least at
 that moment, and a deployment nobody held ends spread evenly.
 */
module ContinuousKitBalance {
  import opened Wrappers
  import opened ContinuousTables
  import opened ContinuousKitTables
  import opened ContinuousKitHistory
  import opened Sums
  import Scheduling
  import Text

  /** The weights of the partitions of a deployment that an instance owns while they are assigned or running. */
  function HeldBy(k: Kit, d: DeploymentId, i: InstanceId): map<Key, int> {
    map key | key in k.partitions && key.deployment == d && k.partitions[key].owner == Some(i) &&
              (k.partitions[key].status == Assigned || k.partitions[key].status == Running) :: k.partitions[key].partition.weight
  }

  /** The same for the listed partitions. */
  function HeldAmong(k: Kit, d: DeploymentId, order: seq<PartitionId>, i: InstanceId): map<Key, int> {
    map key | key in HeldBy(k, d, i) && key.partition in order :: k.partitions[key].partition.weight
  }

  /** The lesser sum, and of equal ones the smaller id. */
  predicate Before(mine: int, a: InstanceId, theirs: int, b: InstanceId) {
    mine < theirs || (mine == theirs && Text.Precedes(a, b))
  }

  /** Nobody else holds less, and among those that hold as much it comes first. */
  ghost predicate HoldsLeast(k: Kit, d: DeploymentId, owner: InstanceId) {
    && owner in k.instances
    && forall w :: w in k.instances && w != owner ==> Before(SumOf(HeldBy(k, d, owner)), owner, SumOf(HeldBy(k, d, w)), w)
  }

  lemma {:induction false} LoadIsHeldAmong(k: Kit, d: DeploymentId, order: seq<PartitionId>, i: InstanceId)
    requires forall m, n :: 0 <= m < n < |order| ==> order[m] != order[n]
    ensures LoadOn(k, d, order, i) == SumOf(HeldAmong(k, d, order, i))
  {
    if order == [] {
      assert HeldAmong(k, d, order, i) == map[];
    } else {
      LoadIsHeldAmong(k, d, order[..|order| - 1], i);
      HeldAmongLast(k, d, order, i);
    }
  }

  lemma HeldAmongLast(k: Kit, d: DeploymentId, order: seq<PartitionId>, i: InstanceId)
    requires order != [] && order[|order| - 1] !in order[..|order| - 1]
    ensures var key, front := Key(d, order[|order| - 1]), HeldAmong(k, d, order[..|order| - 1], i);
            && (key in HeldBy(k, d, i) ==> SumOf(HeldAmong(k, d, order, i)) == SumOf(front) + k.partitions[key].partition.weight)
            && (key !in HeldBy(k, d, i) ==> SumOf(HeldAmong(k, d, order, i)) == SumOf(front))
  {
    var n, key := |order| - 1, Key(d, order[|order| - 1]);
    var front := HeldAmong(k, d, order[..n], i);
    forall p: PartitionId ensures p in order <==> p in order[..n] || p == order[n] {
      InFrontOrLast(order, p);
    }
    if key in HeldBy(k, d, i) {
      assert HeldAmong(k, d, order, i) == front[key := k.partitions[key].partition.weight];
      SumWith(front, key, k.partitions[key].partition.weight);
    } else {
      assert HeldAmong(k, d, order, i) == front;
    }
  }

  lemma LoadIsHeld(k: Kit, d: DeploymentId, i: InstanceId)
    requires KitInv(k) && d in k.deployments
    ensures LoadOn(k, d, k.deployments[d].order, i) == SumOf(HeldBy(k, d, i))
  {
    assert OrderOk(k, d);
    LoadIsHeldAmong(k, d, k.deployments[d].order, i);
    forall key | key in HeldBy(k, d, i) ensures key.partition in k.deployments[d].order {
      assert PartitionOk(k, key);
    }
    assert HeldAmong(k, d, k.deployments[d].order, i) == HeldBy(k, d, i);
  }

  /** The choice of the kit holds the least. */
  lemma ChosenHoldsLeast(k: Kit, d: DeploymentId)
    requires KitInv(k) && d in k.deployments
    ensures HoldsLeast(k, d, Chosen(k, d))
  {
    var load, owner := LoadMap(k, d, k.deployments[d].order), Chosen(k, d);
    Scheduling.LeastLoadedIsLeast(load, k.instances);
    LoadIsHeld(k, d, owner);
    forall w | w in k.instances && w != owner
      ensures Before(SumOf(HeldBy(k, d, owner)), owner, SumOf(HeldBy(k, d, w)), w)
    {
      LoadIsHeld(k, d, w);
      Text.PrecedesIsTotal(owner, w);
    }
  }

  // ---- along a reconcile ----

  predicate DistinctPartitions(xs: seq<Partition>) {
    forall i, j :: 0 <= i < j < |xs| ==> xs[i].id != xs[j].id
  }

  lemma {:induction false} LaterPlacesSkip(k: Kit, d: DeploymentId, xs: seq<Partition>, seconds: LeaseSeconds, n: nat, m: nat, p: PartitionId)
    requires KitInv(k) && d in k.deployments && n <= m <= |xs| && forall j :: n <= j < m ==> xs[j].id != p
    ensures PlaceAll(k, d, xs[..n], seconds).Some? && PlaceAll(k, d, xs[..m], seconds).Some?
    ensures Untouched(PlaceAll(k, d, xs[..n], seconds).value, PlaceAll(k, d, xs[..m], seconds).value, Key(d, p))
    decreases m - n
  {
    if n < m {
      PlaceNext(k, d, xs, seconds, n);
      LaterPlacesSkip(k, d, xs, seconds, n + 1, m, p);
      assert Key(d, p) != Key(d, xs[n].id);
      UntouchedTransitively(PlaceAll(k, d, xs[..n], seconds).value, PlaceAll(k, d, xs[..n + 1], seconds).value,
                            PlaceAll(k, d, xs[..m], seconds).value, Key(d, p));
    } else {
      PlaceAllIsOk(k, d, xs[..n], seconds);
    }
  }

  lemma PlacedAs(k: Kit, d: DeploymentId, x: Partition, seconds: LeaseSeconds)
    requires k.instances != [] && d in k.deployments && Place(k, d, x, seconds).Some?
    ensures var k', key := Place(k, d, x, seconds).value, Key(d, x.id);
            key in k'.partitions && k'.partitions[key].partition == x
  {
  }

  /** A discovered partition ends recorded as it was discovered. */
  lemma {:induction false} PlacedAsDiscovered(k: Kit, d: DeploymentId, xs: seq<Partition>, seconds: LeaseSeconds, n: nat)
    requires KitInv(k) && d in k.deployments && n < |xs| && DistinctPartitions(xs)
    ensures PlaceAll(k, d, xs, seconds).Some?
    ensures var k', key := PlaceAll(k, d, xs, seconds).value, Key(d, xs[n].id);
            key in k'.partitions && k'.partitions[key].partition == xs[n]
  {
    PlaceNext(k, d, xs, seconds, n);
    PlacedAs(PlaceAll(k, d, xs[..n], seconds).value, d, xs[n], seconds);
    LaterPlacesSkip(k, d, xs, seconds, n + 1, |xs|, xs[n].id);
    assert xs[..|xs|] == xs;
  }

  /** What an instance carries at the turn of partition `n`: what it was given so far, and what it still holds of those to come. */
  function CarriedThen(k: Kit, k': Kit, d: DeploymentId, xs: seq<Partition>, n: nat, i: InstanceId): map<Key, int>
    requires n < |xs|
  {
    map key | key in k'.partitions && key.deployment == d && BornThen(k, k', xs, n, key, i) :: WeightThen(k, k', xs, n, key)
  }

  predicate BornThen(k: Kit, k': Kit, xs: seq<Partition>, n: nat, key: Key, i: InstanceId)
    requires n < |xs| && key in k'.partitions
  {
    if Wanted(xs[..n], key.partition) then k'.partitions[key].owner == Some(i)
    else
      && Wanted(xs, key.partition) && key in k.partitions && k.partitions[key].owner == Some(i)
      && (k.partitions[key].status == Assigned || k.partitions[key].status == Running)
  }

  /** A partition counts with the weight it was discovered with from its own turn on. */
  function WeightThen(k: Kit, k': Kit, xs: seq<Partition>, n: nat, key: Key): int
    requires n < |xs| && key in k'.partitions
  {
    if Wanted(xs[..n + 1], key.partition) || key !in k.partitions then k'.partitions[key].partition.weight
    else k.partitions[key].partition.weight
  }

  /** Partition `n` kept its holder, or went to an instance that carried the least at its turn. */
  ghost predicate PlacedLeast(k: Kit, k': Kit, d: DeploymentId, xs: seq<Partition>, n: nat)
    requires n < |xs|
  {
    var key := Key(d, xs[n].id);
    && key in k'.partitions && k'.partitions[key].partition == xs[n]
    && (!Holds(k, key) ==>
        && k'.partitions[key].owner.Some?
        && var o := k'.partitions[key].owner.value;
           && o in k.instances
           && forall w :: w in k.instances && w != o ==>
                Before(SumOf(CarriedThen(k, k', d, xs, n, o)), o, SumOf(CarriedThen(k, k', d, xs, n, w)), w))
  }

  predicate HeldWith(k: Kit, key: Key, i: InstanceId) {
    key in k.partitions && k.partitions[key].owner == Some(i) && (k.partitions[key].status == Assigned || k.partitions[key].status == Running)
  }

  /** What the loop sees of one partition at turn `n` is what the two ends of the reconcile say. */
  ghost predicate SeenAt(k: Kit, k': Kit, turn: Kit, xs: seq<Partition>, n: nat, key: Key)
    requires n < |xs|
  {
    && (key in turn.partitions ==> key in k'.partitions)
    && (forall i :: HeldWith(turn, key, i) <==> (key in k'.partitions && BornThen(k, k', xs, n, key, i)))
    && (forall i :: HeldWith(turn, key, i) ==> turn.partitions[key].partition.weight == WeightThen(k, k', xs, n, key))
  }

  /** The stations of a reconcile: what is gone was released, and the loop is about to place partition `n`. */
  ghost predicate Stations(k: Kit, released: Kit, mid: Kit, k': Kit, d: DeploymentId, xs: seq<Partition>, seconds: LeaseSeconds, n: nat) {
    && KitInv(k) && KitInv(released) && KitInv(mid) && d in k.deployments && d in released.deployments && d in mid.deployments
    && k.deployments[d].active && released.deployments[d].active && DistinctPartitions(xs) && n < |xs|
    && released == ReleaseMissing(k, d, k.deployments[d].order, xs) && released.now == k.now
    && PlaceAll(released, d, xs[..n], seconds) == Some(mid) && PlaceAll(released, d, xs, seconds) == Some(k')
  }

  lemma WantedBefore(xs: seq<Partition>, n: nat, p: PartitionId)
    requires n < |xs| && DistinctPartitions(xs)
    ensures Wanted(xs[..n + 1], p) <==> Wanted(xs[..n], p) || p == xs[n].id
    ensures Wanted(xs[..n + 1], p) ==> Wanted(xs, p) && forall j :: n < j < |xs| ==> xs[j].id != p
    ensures !Wanted(xs[..n], xs[n].id)
  {
    assert xs[..n + 1][..n] == xs[..n];
    WantedInFrontOrLast(xs[..n + 1], p);
    if Wanted(xs[..n + 1], p) {
      var i :| 0 <= i < n + 1 && xs[..n + 1][i].id == p;
      assert xs[i].id == p;
    }
  }

  lemma WantedIsNotReleased(k: Kit, released: Kit, d: DeploymentId, xs: seq<Partition>, p: PartitionId)
    requires KitInv(k) && d in k.deployments && released == ReleaseMissing(k, d, k.deployments[d].order, xs)
    ensures Wanted(xs, p) ==> Untouched(k, released, Key(d, p))
    ensures !Wanted(xs, p) ==> forall i :: !HeldWith(released, Key(d, p), i)
  {
    ReleaseMissingAt(k, d, k.deployments[d].order, xs, p);
    assert Key(d, p) in k.partitions ==> PartitionOk(k, Key(d, p));
  }

  lemma SeenAsItStays(k: Kit, k': Kit, turn: Kit, xs: seq<Partition>, n: nat, key: Key)
    requires n < |xs| && Wanted(xs[..n], key.partition) && Wanted(xs[..n + 1], key.partition)
    requires key in turn.partitions && key in k'.partitions && turn.partitions[key] == k'.partitions[key] && Holds(turn, key)
    ensures SeenAt(k, k', turn, xs, n, key)
  {
  }

  lemma SeenAsItWas(k: Kit, k': Kit, turn: Kit, xs: seq<Partition>, n: nat, key: Key)
    requires n < |xs| && !Wanted(xs[..n], key.partition) && !Wanted(xs[..n + 1], key.partition) && Wanted(xs, key.partition)
    requires key in turn.partitions <==> key in k.partitions
    requires key in k'.partitions && (key in k.partitions ==> turn.partitions[key] == k.partitions[key])
    ensures SeenAt(k, k', turn, xs, n, key)
  {
  }

  lemma SeenWithNobody(k: Kit, released: Kit, k': Kit, turn: Kit, xs: seq<Partition>, n: nat, key: Key)
    requires n < |xs| && !Wanted(xs[..n], key.partition) && !Wanted(xs, key.partition)
    requires Untouched(released, turn, key) && Untouched(released, k', key) && forall i :: !HeldWith(released, key, i)
    ensures SeenAt(k, k', turn, xs, n, key)
  {
    forall i ensures !HeldWith(turn, key, i) {
      assert !HeldWith(released, key, i);
    }
  }

  /** A partition placed before turn `n` is seen as it stays. */
  lemma EarlierAtTurn(k: Kit, released: Kit, mid: Kit, k': Kit, d: DeploymentId, xs: seq<Partition>, seconds: LeaseSeconds, n: nat, p: PartitionId)
    requires Stations(k, released, mid, k', d, xs, seconds, n) && Wanted(xs[..n], p)
    ensures SeenAt(k, k', Noted(mid, d, xs[n]), xs, n, Key(d, p))
  {
    WantedBefore(xs, n, p);
    PlaceAllAt(released, d, xs[..n], seconds, p);
    NotedElsewhere(mid, d, xs[n]);
    NotThere(xs, n, p);
    LaterPlacesSkip(released, d, xs, seconds, n, |xs|, p);
    assert xs[..|xs|] == xs;
    SeenAsItStays(k, k', Noted(mid, d, xs[n]), xs, n, Key(d, p));
  }

  lemma NotThere(xs: seq<Partition>, n: nat, p: PartitionId)
    requires n < |xs| && DistinctPartitions(xs) && Wanted(xs[..n], p)
    ensures forall j :: n <= j < |xs| ==> xs[j].id != p
  {
    var i :| 0 <= i < n && xs[..n][i].id == p;
    assert xs[i].id == p;
  }

  /** The partition of turn `n` still counts for the holder it is about to lose, with its new weight. */
  lemma OwnAtTurn(k: Kit, released: Kit, mid: Kit, k': Kit, d: DeploymentId, xs: seq<Partition>, seconds: LeaseSeconds, n: nat)
    requires Stations(k, released, mid, k', d, xs, seconds, n)
    ensures SeenAt(k, k', Noted(mid, d, xs[n]), xs, n, Key(d, xs[n].id))
  {
    WantedBefore(xs, n, xs[n].id);
    PlaceAllAt(released, d, xs[..n], seconds, xs[n].id);
    WantedIsNotReleased(k, released, d, xs, xs[n].id);
    PlacedAsDiscovered(released, d, xs, seconds, n);
  }

  /** A partition whose turn is still to come is as it was before the reconcile. */
  lemma LaterAtTurn(k: Kit, released: Kit, mid: Kit, k': Kit, d: DeploymentId, xs: seq<Partition>, seconds: LeaseSeconds, n: nat, p: PartitionId)
    requires Stations(k, released, mid, k', d, xs, seconds, n) && !Wanted(xs[..n + 1], p) && Wanted(xs, p)
    ensures SeenAt(k, k', Noted(mid, d, xs[n]), xs, n, Key(d, p))
  {
    WantedBefore(xs, n, p);
    PlaceAllAt(released, d, xs[..n], seconds, p);
    PlaceAllAt(released, d, xs, seconds, p);
    WantedIsNotReleased(k, released, d, xs, p);
    NotedElsewhere(mid, d, xs[n]);
    UntouchedTransitively(k, released, mid, Key(d, p));
    UntouchedTransitively(k, mid, Noted(mid, d, xs[n]), Key(d, p));
    SeenAsItWas(k, k', Noted(mid, d, xs[n]), xs, n, Key(d, p));
  }

  /** One that is gone from the discovery is held by nobody. */
  lemma GoneAtTurn(k: Kit, released: Kit, mid: Kit, k': Kit, d: DeploymentId, xs: seq<Partition>, seconds: LeaseSeconds, n: nat, p: PartitionId)
    requires Stations(k, released, mid, k', d, xs, seconds, n) && !Wanted(xs, p)
    ensures SeenAt(k, k', Noted(mid, d, xs[n]), xs, n, Key(d, p))
  {
    WantedBefore(xs, n, p);
    PlaceAllAt(released, d, xs[..n], seconds, p);
    PlaceAllAt(released, d, xs, seconds, p);
    WantedIsNotReleased(k, released, d, xs, p);
    NotedElsewhere(mid, d, xs[n]);
    assert xs[n].id != p by {
      assert Wanted(xs, xs[n].id);
    }
    UntouchedTransitively(released, mid, Noted(mid, d, xs[n]), Key(d, p));
    SeenWithNobody(k, released, k', Noted(mid, d, xs[n]), xs, n, Key(d, p));
  }

  lemma CarriedAtTurn(k: Kit, released: Kit, mid: Kit, k': Kit, d: DeploymentId, xs: seq<Partition>, seconds: LeaseSeconds, n: nat, i: InstanceId)
    requires Stations(k, released, mid, k', d, xs, seconds, n)
    ensures HeldBy(Noted(mid, d, xs[n]), d, i) == CarriedThen(k, k', d, xs, n, i)
  {
    var turn := Noted(mid, d, xs[n]);
    forall key: Key | key.deployment == d ensures SeenAt(k, k', turn, xs, n, key) {
      EachAtTurn(k, released, mid, k', d, xs, seconds, n, key);
    }
    SeenIsCarried(k, k', turn, d, xs, n, i);
  }

  lemma EachAtTurn(k: Kit, released: Kit, mid: Kit, k': Kit, d: DeploymentId, xs: seq<Partition>, seconds: LeaseSeconds, n: nat, key: Key)
    requires Stations(k, released, mid, k', d, xs, seconds, n) && key.deployment == d
    ensures SeenAt(k, k', Noted(mid, d, xs[n]), xs, n, key)
  {
    var p := key.partition;
    WantedBefore(xs, n, p);
    if Wanted(xs[..n], p) {
      EarlierAtTurn(k, released, mid, k', d, xs, seconds, n, p);
    } else if p == xs[n].id {
      OwnAtTurn(k, released, mid, k', d, xs, seconds, n);
    } else if Wanted(xs, p) {
      LaterAtTurn(k, released, mid, k', d, xs, seconds, n, p);
    } else {
      GoneAtTurn(k, released, mid, k', d, xs, seconds, n, p);
    }
  }

  lemma SeenIsCarried(k: Kit, k': Kit, turn: Kit, d: DeploymentId, xs: seq<Partition>, n: nat, i: InstanceId)
    requires n < |xs| && forall key: Key :: key.deployment == d ==> SeenAt(k, k', turn, xs, n, key)
    ensures HeldBy(turn, d, i) == CarriedThen(k, k', d, xs, n, i)
  {
    var held, carried := HeldBy(turn, d, i), CarriedThen(k, k', d, xs, n, i);
    forall key ensures key in held <==> key in carried {
      assert key.deployment == d ==> SeenAt(k, k', turn, xs, n, key);
      assert key in held <==> key.deployment == d && HeldWith(turn, key, i);
    }
    forall key | key in held ensures held[key] == carried[key] {
      assert SeenAt(k, k', turn, xs, n, key) && HeldWith(turn, key, i);
    }
  }

  /** Granting a lease writes one record, that of its partition. */
  lemma AssignedRow(k: Kit, key: Key, seconds: LeaseSeconds)
    requires k.instances != [] && key in k.partitions && key.deployment in k.deployments && !Taken(k.table, k.now, key)
    ensures Assign(k, key, seconds).Some?
    ensures var k' := Assign(k, key, seconds).value;
            && key in k'.partitions && k'.partitions == k.partitions[key := k'.partitions[key]] && k'.instances == k.instances
            && k'.partitions[key].owner == Some(Chosen(k, key.deployment)) && k'.partitions[key].status == Assigned
            && k'.partitions[key].partition == k.partitions[key].partition
  {
  }

  lemma NextHolder(k: Kit, d: DeploymentId, x: Partition, seconds: LeaseSeconds)
    requires KitInv(k) && d in k.deployments && k.deployments[d].active && !Settled(k, Key(d, x.id))
    ensures KitInv(Noted(k, d, x)) && d in Noted(k, d, x).deployments && Place(k, d, x, seconds).Some?
    ensures var k', key := Place(k, d, x, seconds).value, Key(d, x.id);
            && key in k'.partitions && k'.partitions == k.partitions[key := k'.partitions[key]] && k'.instances == k.instances
            && k'.partitions[key].owner == Some(Chosen(Noted(k, d, x), d))
            && k'.partitions[key].status == Assigned && k'.partitions[key].partition == x
  {
    var turn, key := Noted(k, d, x), Key(d, x.id);
    NotedIsOk(k, d, x);
    UnsettledIsFree(turn, key);
    NextRow(k, d, x, seconds);
  }

  lemma NextRow(k: Kit, d: DeploymentId, x: Partition, seconds: LeaseSeconds)
    requires k.instances != [] && d in k.deployments && k.deployments[d].active && !Settled(k, Key(d, x.id))
    requires !Taken(k.table, k.now, Key(d, x.id))
    ensures Place(k, d, x, seconds).Some?
    ensures var k', key := Place(k, d, x, seconds).value, Key(d, x.id);
            && key in k'.partitions && k'.partitions == k.partitions[key := k'.partitions[key]] && k'.instances == k.instances
            && k'.partitions[key].owner == Some(Chosen(Noted(k, d, x), d))
            && k'.partitions[key].status == Assigned && k'.partitions[key].partition == x
  {
    NotedSettles(k, d, x);
    AssignedRow(Noted(k, d, x), Key(d, x.id), seconds);
  }

  /** Every partition a reconcile of an active deployment places goes to an instance that carries the least at its turn. */
  lemma {:induction false} ReconcileIsGreedy(k: Kit, d: DeploymentId, xs: seq<Partition>, seconds: LeaseSeconds, n: nat)
    requires KitInv(k) && d in k.deployments && k.deployments[d].active && DistinctPartitions(xs) && n < |xs|
    ensures Reconcile(k, d, xs, seconds).Some? && PlacedLeast(k, Reconcile(k, d, xs, seconds).value, d, xs, n)
  {
    var order, key := k.deployments[d].order, Key(d, xs[n].id);
    var released := ReleaseMissing(k, d, order, xs);
    ReleaseMissingFrame(k, d, order, xs);
    ReleaseMissingIsOk(k, d, order, xs);
    PlacedAsDiscovered(released, d, xs, seconds, n);
    PlaceNext(released, d, xs, seconds, n);
    var mid, k' := PlaceAll(released, d, xs[..n], seconds).value, PlaceAll(released, d, xs, seconds).value;
    assert Stations(k, released, mid, k', d, xs, seconds, n);
    if !Holds(k, key) {
      StillWithout(k, released, mid, k', d, xs, seconds, n);
      NextHolder(mid, d, xs[n], seconds);
      LaterPlacesSkip(released, d, xs, seconds, n + 1, |xs|, xs[n].id);
      assert xs[..|xs|] == xs;
      HolderCarriesLeast(k, released, mid, k', d, xs, seconds, n);
    }
  }

  lemma StillWithout(k: Kit, released: Kit, mid: Kit, k': Kit, d: DeploymentId, xs: seq<Partition>, seconds: LeaseSeconds, n: nat)
    requires Stations(k, released, mid, k', d, xs, seconds, n) && !Holds(k, Key(d, xs[n].id)) && mid.now == released.now
    ensures !Settled(mid, Key(d, xs[n].id))
  {
    var key := Key(d, xs[n].id);
    WantedBefore(xs, n, xs[n].id);
    WantedIsNotReleased(k, released, d, xs, xs[n].id);
    PlaceAllAt(released, d, xs[..n], seconds, xs[n].id);
    UntouchedStaysSettled(k, released, key);
    UntouchedStaysSettled(released, mid, key);
    SettledHolds(k, key);
  }

  lemma HolderCarriesLeast(k: Kit, released: Kit, mid: Kit, k': Kit, d: DeploymentId, xs: seq<Partition>, seconds: LeaseSeconds, n: nat)
    requires Stations(k, released, mid, k', d, xs, seconds, n) && KitInv(Noted(mid, d, xs[n])) && mid.instances == k.instances
    ensures var o := Chosen(Noted(mid, d, xs[n]), d);
            && o in k.instances
            && forall w :: w in k.instances && w != o ==>
                 Before(SumOf(CarriedThen(k, k', d, xs, n, o)), o, SumOf(CarriedThen(k, k', d, xs, n, w)), w)
  {
    var turn := Noted(mid, d, xs[n]);
    ChosenHoldsLeast(turn, d);
    CarriedAtTurn(k, released, mid, k', d, xs, seconds, n, Chosen(turn, d));
    forall w | w in k.instances && w != Chosen(turn, d)
      ensures Before(SumOf(CarriedThen(k, k', d, xs, n, Chosen(turn, d))), Chosen(turn, d), SumOf(CarriedThen(k, k', d, xs, n, w)), w)
    {
      CarriedAtTurn(k, released, mid, k', d, xs, seconds, n, w);
    }
  }

  // ---- an even spread ----

  /** No instance holds more than another one by more than this. */
  ghost predicate SpreadWithin(k: Kit, d: DeploymentId, most: nat) {
    forall i, j :: i in k.instances && j in k.instances ==> SumOf(HeldBy(k, d, i)) <= SumOf(HeldBy(k, d, j)) + most
  }

  predicate Unheld(k: Kit, key: Key) {
    key in k.partitions ==> k.partitions[key].status != Assigned && k.partitions[key].status != Running
  }

  lemma NothingHeld(k: Kit, d: DeploymentId, most: nat)
    requires forall key: Key :: key.deployment == d ==> Unheld(k, key)
    ensures SpreadWithin(k, d, most)
  {
    forall i ensures SumOf(HeldBy(k, d, i)) == 0 {
      assert forall key :: key in HeldBy(k, d, i) ==> !Unheld(k, key);
      assert HeldBy(k, d, i) == map[];
    }
  }

  /** The new holder gains the partition, and nobody else gains or loses. */
  lemma HolderGains(k: Kit, k': Kit, key: Key, i: InstanceId)
    requires key in k'.partitions && k'.partitions == k.partitions[key := k'.partitions[key]]
    requires Unheld(k, key) && k'.partitions[key].status == Assigned
    ensures SumOf(HeldBy(k', key.deployment, i)) ==
            SumOf(HeldBy(k, key.deployment, i)) + if k'.partitions[key].owner == Some(i) then k'.partitions[key].partition.weight else 0
  {
    var before, after := HeldBy(k, key.deployment, i), HeldBy(k', key.deployment, i);
    if k'.partitions[key].owner == Some(i) {
      assert after == before[key := k'.partitions[key].partition.weight];
      SumWith(before, key, k'.partitions[key].partition.weight);
    } else {
      assert after == before;
    }
  }

  lemma NotingMovesNobody(k: Kit, d: DeploymentId, x: Partition, i: InstanceId)
    requires d in k.deployments && Unheld(k, Key(d, x.id))
    ensures HeldBy(Noted(k, d, x), d, i) == HeldBy(k, d, i)
  {
  }

  /** The next holder held no more than anybody before the partition was noted. */
  lemma NextHoldsLeast(k: Kit, d: DeploymentId, x: Partition, j: InstanceId)
    requires d in k.deployments && KitInv(Noted(k, d, x)) && d in Noted(k, d, x).deployments && Unheld(k, Key(d, x.id))
    requires j in k.instances
    ensures SumOf(HeldBy(k, d, Chosen(Noted(k, d, x), d))) <= SumOf(HeldBy(k, d, j))
  {
    ChosenHoldsLeast(Noted(k, d, x), d);
    NotingMovesNobody(k, d, x, Chosen(Noted(k, d, x), d));
    NotingMovesNobody(k, d, x, j);
  }

  lemma PlaceKeepsSpread(k: Kit, d: DeploymentId, x: Partition, seconds: LeaseSeconds, most: nat)
    requires KitInv(k) && d in k.deployments && k.deployments[d].active && Unheld(k, Key(d, x.id))
    requires SpreadWithin(k, d, most) && x.weight <= most
    ensures Place(k, d, x, seconds).Some? && SpreadWithin(Place(k, d, x, seconds).value, d, most)
  {
    NextHolder(k, d, x, seconds);
    var k' := Place(k, d, x, seconds).value;
    forall j | j in k.instances ensures SumOf(HeldBy(k, d, Chosen(Noted(k, d, x), d))) <= SumOf(HeldBy(k, d, j)) {
      NextHoldsLeast(k, d, x, j);
    }
    SpreadAfter(k, k', Key(d, x.id), Chosen(Noted(k, d, x), d), most);
  }

  lemma SpreadAfter(k: Kit, k': Kit, key: Key, o: InstanceId, most: nat)
    requires key in k'.partitions && k'.partitions == k.partitions[key := k'.partitions[key]] && k'.instances == k.instances
    requires Unheld(k, key) && k'.partitions[key].status == Assigned && k'.partitions[key].owner == Some(o)
    requires k'.partitions[key].partition.weight <= most && SpreadWithin(k, key.deployment, most)
    requires forall j :: j in k.instances ==> SumOf(HeldBy(k, key.deployment, o)) <= SumOf(HeldBy(k, key.deployment, j))
    ensures SpreadWithin(k', key.deployment, most)
  {
    forall i ensures SumOf(HeldBy(k', key.deployment, i)) ==
                     SumOf(HeldBy(k, key.deployment, i)) + (if i == o then k'.partitions[key].partition.weight else 0) {
      HolderGains(k, k', key, i);
    }
  }

  lemma {:induction false} PlacingKeepsSpread(k: Kit, d: DeploymentId, xs: seq<Partition>, seconds: LeaseSeconds, most: nat, n: nat)
    requires KitInv(k) && d in k.deployments && k.deployments[d].active && DistinctPartitions(xs) && n <= |xs|
    requires (forall x :: x in xs ==> x.weight <= most) && forall key: Key :: key.deployment == d ==> Unheld(k, key)
    ensures PlaceAll(k, d, xs[..n], seconds).Some? && SpreadWithin(PlaceAll(k, d, xs[..n], seconds).value, d, most)
  {
    if n == 0 {
      NothingHeld(k, d, most);
    } else {
      PlacingKeepsSpread(k, d, xs, seconds, most, n - 1);
      PlaceNext(k, d, xs, seconds, n - 1);
      var mid := PlaceAll(k, d, xs[..n - 1], seconds).value;
      WantedBefore(xs, n - 1, xs[n - 1].id);
      PlaceAllAt(k, d, xs[..n - 1], seconds, xs[n - 1].id);
      assert Unheld(k, Key(d, xs[n - 1].id)) && xs[n - 1] in xs;
      PlaceKeepsSpread(mid, d, xs[n - 1], seconds, most);
    }
  }

  /** Where nobody held anything, no two instances end further apart than the heaviest partition; by one, when all weigh one. */
  lemma {:induction false} ReconcileSpreadsEvenly(k: Kit, d: DeploymentId, xs: seq<Partition>, seconds: LeaseSeconds, most: nat)
    requires KitInv(k) && d in k.deployments && k.deployments[d].active && DistinctPartitions(xs)
    requires (forall x :: x in xs ==> x.weight <= most) && forall key: Key :: key.deployment == d ==> Unheld(k, key)
    ensures Reconcile(k, d, xs, seconds).Some? && SpreadWithin(Reconcile(k, d, xs, seconds).value, d, most)
  {
    var order := k.deployments[d].order;
    var released := ReleaseMissing(k, d, order, xs);
    ReleaseMissingFrame(k, d, order, xs);
    ReleaseMissingIsOk(k, d, order, xs);
    forall key: Key | key.deployment == d ensures Unheld(released, key) {
      ReleaseMissingAt(k, d, order, xs, key.partition);
      assert Unheld(k, key) && key == Key(d, key.partition);
    }
    PlacingKeepsSpread(released, d, xs, seconds, most, |xs|);
    assert xs[..|xs|] == xs;
  }
}
