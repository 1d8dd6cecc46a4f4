/** The shards of the pulse workload and the keys of its events (shard_pulse.py). */
module PulseKeys {
  import opened Outbox
  import opened ContinuousTables
  import Text

  function ShardId(shard: nat): PartitionId {
    "shard" + [':'] + Text.Decimal(shard)
  }

  /** discover_partitions: the fixed shard set, each of the default weight. */
  function Shards(count: nat, payload: nat -> string): (ps: seq<Partition>)
    ensures |ps| == count && forall i :: 0 <= i < count ==> ps[i] == Partition(ShardId(i), payload(i), 1)
  {
    if count == 0 then [] else Shards(count - 1, payload) + [Partition(ShardId(count - 1), payload(count - 1), 1)]
  }

  function StableId(shard: nat, tick: nat): string {
    ShardId(shard) + [':'] + Text.Decimal(tick)
  }

  function PulseKey(d: DeploymentId, shard: nat, tick: nat): MessageKey {
    EmissionKey(Key(d, ShardId(shard)), StableId(shard, tick))
  }

  lemma ShardIdsAreDistinct(i: nat, j: nat)
    requires ShardId(i) == ShardId(j)
    ensures i == j
  {
    Text.SplitAtLastSeparator("shard", "shard", Text.Decimal(i), Text.Decimal(j), ':');
    Text.DecimalIsInjective(i, j);
  }

  function Prefix(d: DeploymentId, shard: nat): string {
    Front(d, shard) + [':'] + Text.Decimal(shard)
  }

  function Front(d: DeploymentId, shard: nat): string {
    d + Middle(shard)
  }

  function Middle(shard: nat): string {
    [':'] + ShardId(shard) + [':'] + "shard"
  }

  lemma PulseKeyParts(d: DeploymentId, shard: nat, tick: nat)
    ensures PulseKey(d, shard, tick).dedupKey == Prefix(d, shard) + [':'] + Text.Decimal(tick)
  {
    var id := ShardId(shard);
    calc {
      PulseKey(d, shard, tick).dedupKey;
      d + [':'] + id + [':'] + (id + [':'] + Text.Decimal(tick));
      d + ([':'] + id + [':'] + "shard") + [':'] + Text.Decimal(shard) + [':'] + Text.Decimal(tick);
      Prefix(d, shard) + [':'] + Text.Decimal(tick);
    }
  }

  lemma PrefixesAreDistinct(d: DeploymentId, i: nat, d': DeploymentId, i': nat)
    requires Prefix(d, i) == Prefix(d', i')
    ensures d == d' && i == i'
  {
    Text.SplitAtLastSeparator(Front(d, i), Front(d', i'), Text.Decimal(i), Text.Decimal(i'), ':');
    Text.DecimalIsInjective(i, i');
    var x, n := Front(d, i), |Middle(i)|;
    assert d == x[..|x| - n] && d' == x[..|x| - n];
  }

  /** Discovery never returns two partitions of one id. */
  lemma DiscoveredShardsAreDistinct(count: nat, payload: nat -> string)
    ensures forall i, j :: 0 <= i < j < count ==> Shards(count, payload)[i].id != Shards(count, payload)[j].id
    ensures forall i: nat :: i < count ==> Shards(count, payload)[i] == Partition("shard:" + Text.Decimal(i), payload(i), 1)
  {
    assert "shard" + [':'] == "shard:";
    forall i, j | 0 <= i < j < count ensures Shards(count, payload)[i].id != Shards(count, payload)[j].id {
      if ShardId(i) == ShardId(j) {
        ShardIdsAreDistinct(i, j);
      }
    }
  }

  /** The dedup key of a pulse names its deployment, its shard and its tick, whatever the deployment is called. */
  lemma PulseKeysAreDistinct(d: DeploymentId, i: nat, t: nat, d': DeploymentId, i': nat, t': nat)
    requires PulseKey(d, i, t) == PulseKey(d', i', t')
    ensures d == d' && i == i' && t == t'
  {
    PulseKeyParts(d, i, t);
    PulseKeyParts(d', i', t');
    Text.SplitAtLastSeparator(Prefix(d, i), Prefix(d', i'), Text.Decimal(t), Text.Decimal(t'), ':');
    Text.DecimalIsInjective(t, t');
    PrefixesAreDistinct(d, i, d', i');
  }
}
