/** Block metadata, and the data a block stands for.

    A ULID is modelled by the 128-bit number its bytes spell, so comparing ULIDs is comparing numbers
    and the zero ULID is 0. Labels are the block's external labels. */
module Block {
  import opened Util
  import opened Sharding

  type ULID = nat

  const SHARD_ID_LABEL: string := "__compactor_shard_id__"
  const OUT_OF_ORDER_LABEL: string := "__out_of_order__"
  const OUT_OF_ORDER_VALUE: string := "true"

  datatype Meta = Meta(
    ulid: ULID,
    minTime: int,
    maxTime: int,
    level: int,
    sources: seq<ULID>,
    numSamples: nat,
    resolution: int,
    labels: map<string, string>)

  /** Reading an absent label gives the empty string. */
  function ShardID(m: Meta): string {
    if SHARD_ID_LABEL in m.labels then m.labels[SHARD_ID_LABEL] else ""
  }

  function SourceSet(m: Meta): set<ULID> {
    set s | s in m.sources
  }

  /** The shard a block declares, when its label can be parsed. */
  function ShardOf(m: Meta): Option<ShardRef> {
    ParseShardID(ShardID(m))
  }

  /** Which series (given by hash) a shard ID selects: all of them when empty, the ones with
      hash % N == i for a parsed i of N. What a label that cannot be parsed selects is unknown;
      `unknown` stands for it, and every result below holds whatever it is. */
  predicate InRegion(shardID: string, hash: nat, unknown: (string, nat) -> bool) {
    shardID == "" ||
    match ParseShardID(shardID)
    case Some(ref) => hash % ref.count == ref.index
    case None => unknown(shardID, hash)
  }

  /** The block holds the part of source block `src` made of the series with this hash. */
  predicate Holds(m: Meta, src: ULID, hash: nat, unknown: (string, nat) -> bool) {
    src in m.sources && InRegion(ShardID(m), hash, unknown)
  }
}
