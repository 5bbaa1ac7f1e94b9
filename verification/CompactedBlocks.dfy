/** From what the TSDB compactor returns to the blocks to upload: empty results are dropped and each
    remaining block gets the labels of its shard. */
module CompactedBlocks {
  import opened Util
  import opened Sharding
  import opened Block
  import opened Sequences
  import opened PlanSpec
  import opened Grouper
  import opened Jobs
  import opened CompactionRun

  /** A compacted block has the sources of all the blocks, and samples. */
  ghost predicate FromAll(job: Job, m: Meta) {
    m.numSamples > 0 && forall src :: src in m.sources <==> exists b :: b in job.blocks && src in b.sources
  }

  /** What the TSDB compactor returns: when splitting, one entry for each shard, at the shard's index;
      when merging, at most one entry. Entries for nothing, and only those, are missing (the zero ULID, here
      None). */
  ghost predicate TsdbContract(w: World, job: Job, count: nat, result: seq<Option<Meta>>) {
    var shards := if job.id.stage.Split? then count else 1;
    (if job.id.stage.Split? then |result| == count else |result| <= 1) &&
    (forall i: nat :: i < |result| && result[i].Some? ==>
      FromAll(job, result[i].value) && SomethingFor(w, job, i, count)) &&
    (forall i: nat :: i < shards && (i >= |result| || result[i].None?) ==> NothingFor(w, job, i, count))
  }

  /** ULIDs are generated in increasing order. */
  ghost predicate NewULIDs(result: seq<Option<Meta>>, next: ULID, next': ULID) {
    next <= next' &&
    (forall i :: 0 <= i < |result| && result[i].Some? ==> next <= result[i].value.ulid < next') &&
    (forall i, j :: 0 <= i < j < |result| && result[i].Some? && result[j].Some? ==>
      result[i].value.ulid != result[j].value.ulid)
  }

  /** What a call of the TSDB library ends with. */
  datatype TsdbResult = Compacted(blocks: seq<Option<Meta>>, next: ULID) | IndexTooLarge | CompactionFailed

  /** The TSDB library: given a job, the next ULID and whatever else a call depends on. */
  type Tsdb = (Snapshot, ULID, nat) -> TsdbResult

  /** This call fulfils the contract. */
  ghost predicate Obeys(w: World, cfg: Config, tsdb: Tsdb, c: Snapshot, job: Job, next: ULID, any: nat) {
    var result := tsdb(c, next, any);
    Carries(c, cfg, job) && result.Compacted? ==>
      TsdbContract(w, job, c.splitNumShards, result.blocks) && NewULIDs(result.blocks, next, result.next)
  }

  ghost predicate Reliable(w: World, cfg: Config, tsdb: Tsdb) {
    forall c, job, next, any {:trigger Obeys(w, cfg, tsdb, c, job, next, any)} :: Obeys(w, cfg, tsdb, c, job, next, any)
  }

  lemma LibraryObeys(w: World, cfg: Config, tsdb: Tsdb, c: Snapshot, job: Job, next: ULID, any: nat)
    requires Reliable(w, cfg, tsdb)
    ensures Obeys(w, cfg, tsdb, c, job, next, any)
  {
  }

  datatype Indexed = Indexed(shardIndex: nat, m: Meta)

  predicate Listed(found: seq<Indexed>, i: int) {
    exists k :: 0 <= k < |found| && found[k].shardIndex == i
  }

  /** The first n entries of the result that are blocks, each once and with its index. */
  ghost predicate NonEmptyUpTo(result: seq<Option<Meta>>, n: nat, found: seq<Indexed>)
    requires n <= |result|
  {
    (forall k :: 0 <= k < |found| ==> found[k].shardIndex < n && result[found[k].shardIndex] == Some(found[k].m)) &&
    (forall j, k :: 0 <= j < k < |found| ==> found[j].shardIndex < found[k].shardIndex) &&
    (forall i :: 0 <= i < n && result[i].Some? ==> Listed(found, i))
  }

  ghost predicate NonEmpty(result: seq<Option<Meta>>, found: seq<Indexed>) {
    NonEmptyUpTo(result, |result|, found)
  }

  lemma ListedAfter(found: seq<Indexed>, x: Indexed, i: int)
    requires Listed(found, i) || x.shardIndex == i
    ensures Listed(found + [x], i)
  {
    var longer := found + [x];
    if Listed(found, i) {
      var k :| 0 <= k < |found| && found[k].shardIndex == i;
      assert longer[k] == found[k];
    } else {
      assert longer[|found|] == x;
    }
  }

  /** convertCompactionResultToForEachJobs. */
  method ConvertResult(result: seq<Option<Meta>>) returns (found: seq<Indexed>)
    ensures NonEmpty(result, found)
  {
    found := [];
    for ix := 0 to |result|
      invariant NonEmptyUpTo(result, ix, found)
    {
      if result[ix].None? {
        continue;
      }
      var x := Indexed(ix, result[ix].value);
      forall i | 0 <= i <= ix && result[i].Some? ensures Listed(found + [x], i) { ListedAfter(found, x, i); }
      found := found + [x];
    }
  }

  /** hasNonZeroULIDs. */
  method HasNonZeroULIDs(result: seq<Option<Meta>>) returns (has: bool)
    ensures has <==> exists i :: 0 <= i < |result| && result[i].Some?
  {
    for i := 0 to |result|
      invariant forall k :: 0 <= k < i ==> result[k].None?
    {
      if result[i].Some? {
        return true;
      }
    }
    return false;
  }

  /** The block as it is uploaded: the job's labels, the shard ID when splitting, the job's resolution. */
  function Inject(job: Job, count: nat, x: Indexed): Meta
    requires job.blocks != []
  {
    x.m.(labels := OutputLabels(job, x.shardIndex, count), resolution := job.blocks[0].resolution)
  }

  /** The job object carries the planned job. */
  ghost predicate Carries(s: Snapshot, cfg: Config, job: Job) {
    job.blocks != [] && s.labels == job.blocks[0].labels && s.resolution == job.blocks[0].resolution &&
    s.useSplitting == job.id.stage.Split? && s.splitNumShards == ShardsFor(cfg, job) &&
    multiset(s.metas) == multiset(job.blocks)
  }

  /** The loop that injects the metadata of each block. */
  method InjectAll(c: Snapshot, found: seq<Indexed>, ghost cfg: Config, ghost job: Job) returns (outputs: seq<Meta>)
    requires Carries(c, cfg, job)
    ensures |outputs| == |found| && forall k :: 0 <= k < |found| ==>
        outputs[k] == Inject(job, c.splitNumShards, found[k])
  {
    outputs := [];
    for k := 0 to |found|
      invariant |outputs| == k && forall j :: 0 <= j < k ==> outputs[j] == Inject(job, c.splitNumShards, found[j])
    {
      var newLabels := c.labels;
      if c.useSplitting {
        newLabels := newLabels[SHARD_ID_LABEL := FormatShardID(found[k].shardIndex, c.splitNumShards)];
      }
      outputs := outputs + [found[k].m.(labels := newLabels, resolution := c.resolution)];
    }
  }

  /** What is uploaded fulfils the contract of the protocol. */
  lemma InjectedFulfil(w: World, job: Job, count: nat, result: seq<Option<Meta>>, found: seq<Indexed>,
                       outputs: seq<Meta>)
    requires job.blocks != [] && TsdbContract(w, job, count, result) && NonEmpty(result, found)
    requires |outputs| == |found| && forall k :: 0 <= k < |found| ==> outputs[k] == Inject(job, count, found[k])
    ensures CompactorContract(w, job, count, Elements(outputs))
  {
    var shards := if job.id.stage.Split? then count else 1;
    NoMoreThanShards(result, found);
    FewElements(outputs);
    forall m | m in Elements(outputs)
      ensures exists i: nat :: i < shards && IsOutput(job, i, count, m) && SomethingFor(w, job, i, count)
    {
      var k :| 0 <= k < |outputs| && outputs[k] == m;
      var i := found[k].shardIndex;
      assert FromAll(job, found[k].m) && i < shards && IsOutput(job, i, count, m) && SomethingFor(w, job, i, count);
    }
    forall i: nat | i < shards
      ensures NothingFor(w, job, i, count) || exists m :: m in Elements(outputs) && IsOutput(job, i, count, m)
    {
      if i < |result| && result[i].Some? {
        var k :| 0 <= k < |found| && found[k].shardIndex == i;
        assert FromAll(job, found[k].m);
        assert outputs[k] in Elements(outputs) && IsOutput(job, i, count, outputs[k]);
      }
    }
  }

  /** Distinct entries become distinct blocks. */
  lemma InjectedAreDistinct(job: Job, count: nat, result: seq<Option<Meta>>, found: seq<Indexed>, outputs: seq<Meta>,
                            next: ULID, next': ULID)
    requires job.blocks != [] && NewULIDs(result, next, next') && NonEmpty(result, found)
    requires |outputs| == |found| && forall k :: 0 <= k < |found| ==> outputs[k] == Inject(job, count, found[k])
    ensures forall k :: 0 <= k < |outputs| ==> next <= outputs[k].ulid < next'
    ensures forall j, k :: 0 <= j < k < |outputs| ==> outputs[j].ulid != outputs[k].ulid
  {
    forall k | 0 <= k < |outputs| ensures next <= outputs[k].ulid < next' {
      assert result[found[k].shardIndex] == Some(found[k].m);
    }
    forall j, k | 0 <= j < k < |outputs| ensures outputs[j].ulid != outputs[k].ulid {
      assert found[j].shardIndex < found[k].shardIndex;
      assert result[found[j].shardIndex] == Some(found[j].m) && result[found[k].shardIndex] == Some(found[k].m);
    }
  }

  /** There are no more blocks than shards. */
  lemma NoMoreThanShards(result: seq<Option<Meta>>, found: seq<Indexed>)
    requires NonEmpty(result, found)
    ensures |found| <= |result|
  {
    IndexedByPosition(result, found, |found|);
  }

  lemma {:induction false} IndexedByPosition(result: seq<Option<Meta>>, found: seq<Indexed>, k: nat)
    requires NonEmpty(result, found) && k <= |found|
    ensures k <= |result| && (k > 0 ==> found[k - 1].shardIndex >= k - 1)
  {
    if k > 0 {
      IndexedByPosition(result, found, k - 1);
      assert k > 1 ==> found[k - 2].shardIndex < found[k - 1].shardIndex;
      assert found[k - 1].shardIndex < |result|;
    }
  }
}
