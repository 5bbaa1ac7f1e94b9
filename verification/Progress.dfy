/** Why the compaction loop ends: a measure of the blocks still to be compacted that every job which
    changes anything brings down. */
module Progress {
  import opened Sharding
  import opened Block
  import opened Sorting
  import opened Sequences
  import opened Arithmetic
  import opened PlanSpec
  import opened Grouper
  import opened CompactionRun

  /** The live blocks open to compaction, sharded or unsharded ones. */
  function Working(b: Bucket, sharded: bool): set<ULID> {
    set id | id in b.Live() && id !in b.noCompact && (ShardID(b.blocks[id]) != "") == sharded
  }

  /** An unsharded block weighs one more than the n sharded blocks it may be split into. */
  function Weight(unsharded: set<ULID>, sharded: set<ULID>, n: nat): nat {
    Times(|unsharded|, n + 1) + |sharded|
  }

  function Measure(b: Bucket, n: nat): nat {
    Weight(Working(b, false), Working(b, true), n)
  }

  lemma TimesGrows(j: nat, k: nat, a: nat)
    requires j <= k
    ensures Times(j, a) <= Times(k, a) && (j < k ==> Times(j, a) + a <= Times(k, a))
  {
    if j < k {
      if a > 0 { TimesIsMonotone(j, k, a); }
      NonNegative(j, a);
    }
  }

  lemma FewerWeigh(u: set<ULID>, s: set<ULID>, u': set<ULID>, s': set<ULID>, n: nat)
    requires u' <= u && s' <= s
    ensures Weight(u', s', n) <= Weight(u, s, n)
    ensures u' < u || s' < s ==> Weight(u', s', n) < Weight(u, s, n)
  {
    SubsetIsNotLarger(u', u);
    SubsetIsNotLarger(s', s);
    TimesGrows(|u'|, |u|, n + 1);
  }

  /** Marking blocks for deletion or as not to be compacted never brings the measure up, and brings it
      down when one of them was open to compaction. */
  lemma MarkingShrinks(b: Bucket, b': Bucket, n: nat)
    requires b'.blocks == b.blocks && b.deleted <= b'.deleted && b.noCompact <= b'.noCompact
    ensures Measure(b', n) <= Measure(b, n)
    ensures (exists id :: id in b.Live() && id !in b.noCompact && (id in b'.deleted || id in b'.noCompact)) ==>
              Measure(b', n) < Measure(b, n)
  {
    if id :| id in b.Live() && id !in b.noCompact && (id in b'.deleted || id in b'.noCompact) {
      var x := ShardID(b.blocks[id]) != "";
      assert id in Working(b, x) && id !in Working(b', x);
    }
    FewerWeigh(Working(b, false), Working(b, true), Working(b', false), Working(b', true), n);
  }

  // ---------- replacing blocks ----------

  predicate AllOfKind(outputs: set<Meta>, sharded: bool) {
    forall m :: m in outputs ==> (ShardID(m) != "") == sharded
  }

  function IDs(outputs: set<Meta>): set<ULID> {
    set m | m in outputs :: m.ulid
  }

  /** The ULIDs of the outputs of one kind. */
  function KindIDs(outputs: set<Meta>, sharded: bool): set<ULID> {
    set m | m in outputs && (ShardID(m) != "") == sharded :: m.ulid
  }

  lemma {:induction false} FewIDs(ms: set<Meta>, sharded: bool)
    ensures |KindIDs(ms, sharded)| <= |ms|
    decreases |ms|
  {
    if ms == {} {
      assert KindIDs(ms, sharded) == {};
    } else {
      var m :| m in ms;
      FewIDs(ms - {m}, sharded);
      assert KindIDs(ms, sharded) <= KindIDs(ms - {m}, sharded) + {m.ulid};
      SubsetIsNotLarger(KindIDs(ms, sharded), KindIDs(ms - {m}, sharded) + {m.ulid});
    }
  }

  /** Sources went from before and outputs came: after has no more than what is then left. */
  ghost predicate Swapped(before: set<ULID>, after: set<ULID>, sources: set<ULID>, outputs: set<Meta>, sharded: bool) {
    after <= (before - sources) + KindIDs(outputs, sharded)
  }

  lemma SizeAfter(before: set<ULID>, after: set<ULID>, sources: set<ULID>, outputs: set<Meta>, sharded: bool)
    requires Swapped(before, after, sources, outputs, sharded)
    ensures |after| <= |before| + |outputs|
    ensures sources <= before ==> |after| <= |before| - |sources| + |outputs|
    ensures AllOfKind(outputs, !sharded) ==> |after| <= |before|
    ensures AllOfKind(outputs, !sharded) && sources <= before ==> |after| <= |before| - |sources|
  {
    FewIDs(outputs, sharded);
    SubsetIsNotLarger(after, (before - sources) + KindIDs(outputs, sharded));
    SubsetIsNotLarger(before - sources, before);
    if sources <= before { assert |before - sources| == |before| - |sources|; }
    if AllOfKind(outputs, !sharded) {
      assert after <= before - sources;
      SubsetIsNotLarger(after, before - sources);
    }
  }

  /** A split job turns one or more unsharded blocks into at most n sharded ones: progress. */
  lemma SplitShrinks(u: set<ULID>, s: set<ULID>, u': set<ULID>, s': set<ULID>, n: nat, sources: set<ULID>,
                     outputs: set<Meta>)
    requires Swapped(u, u', sources, outputs, false) && Swapped(s, s', sources, outputs, true)
    requires sources <= u && |sources| >= 1 && |outputs| <= n && AllOfKind(outputs, true)
    ensures Weight(u', s', n) < Weight(u, s, n)
  {
    SizeAfter(u, u', sources, outputs, false);
    SizeAfter(s, s', sources, outputs, true);
    TimesGrows(|u'|, |u|, n + 1);
  }

  /** A merge job turns two or more blocks of one kind into at most one of that kind: progress. */
  lemma MergeShrinks(u: set<ULID>, s: set<ULID>, u': set<ULID>, s': set<ULID>, n: nat, sources: set<ULID>,
                     outputs: set<Meta>, sharded: bool)
    requires Swapped(u, u', sources, outputs, false) && Swapped(s, s', sources, outputs, true)
    requires sources <= (if sharded then s else u) && |sources| >= 2 && |outputs| <= 1 && AllOfKind(outputs, sharded)
    ensures Weight(u', s', n) < Weight(u, s, n)
  {
    SizeAfter(u, u', sources, outputs, false);
    SizeAfter(s, s', sources, outputs, true);
    TimesGrows(|u'|, |u|, n + 1);
  }

  // ---------- jobs ----------

  function BlockIDs(blocks: seq<Meta>): set<ULID> {
    set m | m in blocks :: m.ulid
  }

  /** The blocks are as in the bucket, live and open to compaction. */
  ghost predicate Ready(b: Bucket, blocks: seq<Meta>) {
    forall m :: m in blocks ==> m.ulid in b.Live() && b.blocks[m.ulid] == m && m.ulid !in b.noCompact
  }

  /** What planning guarantees of a job. */
  ghost predicate Viable(cfg: Config, job: Job) {
    OneKind(cfg, job) && NoRepeats(job.blocks) && (job.id.stage.Merge? ==> |job.blocks| >= 2)
  }

  /** The largest shard count a job may be run with. */
  function MostShards(cfg: Config): nat {
    if cfg.shards % UINT32 < cfg.oooShards % UINT32 then cfg.oooShards % UINT32 else cfg.shards % UINT32
  }

  /** The jobs are ready to run, one after the other: none has a block of another. */
  ghost predicate AllViable(cfg: Config, plan: seq<Job>, b: Bucket) {
    (forall k :: 0 <= k < |plan| ==> Viable(cfg, plan[k]) && Ready(b, plan[k].blocks)) &&
    (forall j, k :: 0 <= j < k < |plan| ==> BlockIDs(plan[j].blocks) !! BlockIDs(plan[k].blocks))
  }

  /** Blocks are told apart by their ULIDs. */
  ghost predicate OneEach(blocks: seq<Meta>) {
    forall m, n :: m in blocks && n in blocks && m.ulid == n.ulid ==> m == n
  }

  lemma {:induction false} AsManyIDs(blocks: seq<Meta>)
    requires OneEach(blocks) && NoRepeats(blocks)
    ensures |BlockIDs(blocks)| == |blocks|
  {
    if blocks != [] {
      var init, m := blocks[..|blocks| - 1], blocks[|blocks| - 1];
      AsManyIDs(init);
      assert blocks == init + [m];
      forall n | n in init ensures n.ulid != m.ulid { assert n != m && n in blocks; }
      assert BlockIDs(blocks) == BlockIDs(init) + {m.ulid};
    }
  }

  /** Not too many outputs, and of the kind the job makes. */
  ghost predicate Fits(cfg: Config, job: Job, outputs: set<Meta>) {
    job.blocks != [] &&
    if job.id.stage.Split? then |outputs| <= MostShards(cfg) && AllOfKind(outputs, true)
    else |outputs| <= 1 && AllOfKind(outputs, ShardID(job.blocks[0]) != "")
  }

  /** What the compactor puts out for a job fits it. */
  lemma ContractFits(w: World, cfg: Config, job: Job, outputs: set<Meta>)
    requires OneKind(cfg, job) && CompactorContract(w, job, ShardsFor(cfg, job), outputs)
    ensures Fits(cfg, job, outputs)
  {
    var count := ShardsFor(cfg, job);
    var shards := if job.id.stage.Split? then count else 1;
    forall m | m in outputs
      ensures if job.id.stage.Split? then ShardID(m) != "" else ShardID(m) == ShardID(job.blocks[0])
    {
      var i: nat :| i < shards && IsOutput(job, i, count, m) && SomethingFor(w, job, i, count);
      if job.id.stage.Split? { ParseOfFormat(i, count); }
    }
  }

  /** The blocks of a job are open ones of its kind. */
  ghost predicate Opens(job: Job, u: set<ULID>, s: set<ULID>)
    requires job.blocks != []
  {
    BlockIDs(job.blocks) <= if ShardID(job.blocks[0]) != "" then s else u
  }

  /** A job that replaces its blocks by outputs that fit it makes progress. */
  lemma JobShrinks(cfg: Config, job: Job, outputs: set<Meta>, u: set<ULID>, s: set<ULID>, u': set<ULID>, s': set<ULID>)
    requires Viable(cfg, job) && Fits(cfg, job, outputs) && |BlockIDs(job.blocks)| == |job.blocks| && Opens(job, u, s)
    requires Swapped(u, u', BlockIDs(job.blocks), outputs, false) && Swapped(s, s', BlockIDs(job.blocks), outputs, true)
    ensures Weight(u', s', MostShards(cfg)) < Weight(u, s, MostShards(cfg))
  {
    if job.id.stage.Split? {
      assert job.blocks[0] in job.blocks;
      SplitShrinks(u, s, u', s', MostShards(cfg), BlockIDs(job.blocks), outputs);
    } else {
      MergeShrinks(u, s, u', s', MostShards(cfg), BlockIDs(job.blocks), outputs, ShardID(job.blocks[0]) != "");
    }
  }

  lemma ReadyAreOpen(cfg: Config, job: Job, b: Bucket)
    requires OneKind(cfg, job) && Ready(b, job.blocks)
    ensures Opens(job, Working(b, false), Working(b, true))
  {
  }

  /** The sources were marked for deletion and the outputs added. */
  ghost predicate Replaced(b: Bucket, b': Bucket, sources: set<ULID>, outputs: set<Meta>) {
    b'.deleted == b.deleted + sources && b.noCompact <= b'.noCompact &&
    forall id :: id in b'.blocks ==>
      (id in b.blocks && b'.blocks[id] == b.blocks[id]) || (b'.blocks[id] in outputs && b'.blocks[id].ulid == id)
  }

  lemma ReplacedShrinks(cfg: Config, job: Job, outputs: set<Meta>, b: Bucket, b': Bucket)
    requires Viable(cfg, job) && Ready(b, job.blocks) && Replaced(b, b', BlockIDs(job.blocks), outputs) &&
        Fits(cfg, job, outputs)
    ensures Measure(b', MostShards(cfg)) < Measure(b, MostShards(cfg))
  {
    AsManyIDs(job.blocks);
    ReadyAreOpen(cfg, job, b);
    JobShrinks(cfg, job, outputs, Working(b, false), Working(b, true), Working(b', false), Working(b', true));
  }
}
