/** One compactor working on a tenant's bucket, as a protocol of single effects: sync, mark a duplicate,
    plan, compact a job, upload an output, mark a source, mark an unhealthy block, crash. Jobs are
    interleaved freely, new blocks may be uploaded and marked blocks removed at any time. */
module CompactionRun {
  import opened Util
  import opened Sharding
  import opened Block
  import opened Arithmetic
  import opened DedupSpec
  import opened DedupFilter
  import opened Sequences
  import opened PlanSpec
  import opened Grouper
  import opened Planner
  import opened Jobs

  /** One piece of data: the series with this hash, as found in this source block, at this resolution. */
  datatype Piece = Piece(resolution: int, source: ULID, hash: nat)

  /** The facts outside the protocol: which series each source block really had, what unreadable shard
      labels select, and the shard count used for the data of each source. */
  datatype World = World(truth: (ULID, nat) -> bool, unknown: (string, nat) -> bool, count: ULID -> nat)

  /** The block contains the piece. A block holds what its sources and shard say, of the series that
      the sources really had. */
  predicate Has(w: World, m: Meta, p: Piece) {
    m.resolution == p.resolution && Holds(m, p.source, p.hash, w.unknown) && w.truth(p.source, p.hash)
  }

  type Content = (Meta, Piece) -> bool

  /** has is the content relation of the world, as a value. */
  ghost predicate IsContent(w: World, has: Content) {
    forall m, p {:trigger Has(w, m, p)} :: has(m, p) <==> Has(w, m, p)
  }

  /** Object storage: the blocks and the markers. */
  datatype Bucket = Bucket(blocks: map<ULID, Meta>, deleted: set<ULID>, noCompact: set<ULID>) {
    function Live(): map<ULID, Meta> {
      blocks - deleted
    }
  }

  /** The piece is in a block that exists and is not marked for deletion. */
  ghost predicate Stored(has: Content, b: Bucket, p: Piece) {
    exists id :: id in b.Live() && has(b.Live()[id], p)
  }

  /** A job being run: not compacted yet (None), or with its outputs, some of them uploaded. */
  datatype RunningJob = RunningJob(job: Job, outputs: Option<set<Meta>>, uploaded: set<Meta>)

  datatype Memory =
    | Idle
    | Synced(duplicates: set<ULID>, metas: map<ULID, Meta>)
    | Running(jobs: seq<RunningJob>)

  datatype State = State(bucket: Bucket, memory: Memory)

  function OutputsOf(j: RunningJob): set<Meta> {
    match j.outputs case None => {} case Some(s) => s
  }

  predicate AllUploaded(j: RunningJob) {
    j.outputs.Some? && j.outputs.value == j.uploaded
  }

  /** The ULID was never used in the bucket. */
  predicate Unused(b: Bucket, id: ULID) {
    id !in b.blocks && id !in b.deleted
  }

  /** No output of these jobs has the ULID. */
  ghost predicate NotAnOutput(jobs: seq<RunningJob>, id: ULID) {
    forall k, m :: 0 <= k < |jobs| && m in OutputsOf(jobs[k]) ==> m.ulid != id
  }

  function JobsOf(mem: Memory): seq<RunningJob> {
    match mem case Running(jobs) => jobs case _ => []
  }

  // ---------- the TSDB compactor's contract ----------

  /** Labels of an output: those of the job, with the shard ID injected when splitting. */
  function OutputLabels(job: Job, index: nat, count: nat): map<string, string>
    requires job.blocks != []
  {
    if job.id.stage.Split? then job.blocks[0].labels[SHARD_ID_LABEL := FormatShardID(index, count)]
    else job.blocks[0].labels
  }

  /** m is the output for shard index: it has all sources, and the job's labels and resolution. */
  ghost predicate IsOutput(job: Job, index: nat, count: nat, m: Meta) {
    job.blocks != [] && m.labels == OutputLabels(job, index, count) && m.resolution == job.blocks[0].resolution &&
    m.numSamples > 0 && forall src :: src in m.sources <==> exists b :: b in job.blocks && src in b.sources
  }

  /** The part of the blocks the output would have got. */
  predicate InOutputShard(job: Job, index: nat, count: nat, hash: nat) {
    job.id.stage.Split? ==> count > 0 && hash % count == index
  }

  /** Without an output for a shard there is nothing of it in the blocks. */
  ghost predicate NothingFor(w: World, job: Job, index: nat, count: nat) {
    forall b, p :: b in job.blocks && Has(w, b, p) ==> !InOutputShard(job, index, count, p.hash)
  }

  /** There is something for the shard in the blocks. */
  ghost predicate SomethingFor(w: World, job: Job, index: nat, count: nat) {
    exists b, p :: b in job.blocks && Has(w, b, p) && InOutputShard(job, index, count, p.hash)
  }

  /** One output for each shard (just one when merging) there is something for, and no other. */
  ghost predicate CompactorContract(w: World, job: Job, count: nat, outputs: set<Meta>) {
    var shards := if job.id.stage.Split? then count else 1;
    |outputs| <= shards &&
    (forall m :: m in outputs ==>
      exists i: nat :: i < shards && IsOutput(job, i, count, m) && SomethingFor(w, job, i, count)) &&
    (forall i: nat :: i < shards ==>
      NothingFor(w, job, i, count) || exists m :: m in outputs && IsOutput(job, i, count, m))
  }

  // ---------- steps ----------

  /** A block as it may appear in the bucket: empty if it counts no samples; split with the shard count
      of its sources; and, as long as it is unsharded, with sources whose shard count is the one the tenant's
      settings give now. */
  ghost predicate Good(w: World, cfg: Config, has: Content, m: Meta) {
    (m.numSamples == 0 ==> forall p :: !has(m, p)) &&
    (ShardOf(m).Some? ==> forall src :: src in m.sources ==> ShardOf(m).value.count == w.count(src)) &&
    (ShardID(m) == "" && EffectiveShardCount(cfg, [m]) > 0 ==> forall src :: src in m.sources ==>
      w.count(src) == EffectiveShardCount(cfg, [m]))
  }

  /** The block contains something. */
  ghost predicate Solid(w: World, m: Meta) {
    exists p :: Has(w, m, p)
  }

  /** The tenant's settings and block ranges, with the content relation and the goodness and solidity of
      blocks as values. */
  datatype Setup = Setup(cfg: Config, ranges: seq<int>, has: Content, good: Meta -> bool, solid: Meta -> bool,
                         marksFail: bool)

  ghost predicate Describes(w: World, v: Setup) {
    IsContent(w, v.has) && (forall m {:trigger Good(w, v.cfg, v.has, m)} :: v.good(m) <==> Good(w, v.cfg, v.has, m)) &&
    (forall m {:trigger Solid(w, m)} :: v.solid(m) <==> Solid(w, m))
  }

  datatype Step =
    | NewBlock(m: Meta)
    | RemoveMarked(id: ULID)
    | Sync(kept: map<ULID, Meta>)
    | MarkDuplicate(id: ULID)
    | StartJobs(jobs: seq<Job>)
    | CompactJob(i: nat, outputs: set<Meta>)
    | UploadOutput(i: nat, m: Meta)
    | MarkSource(i: nat, m: Meta)
    | MarkEmptySource(i: nat, m: Meta)
    | MarkNoCompact(ids: set<ULID>)
    | DropJob(i: nat)
    | EndIteration
    | Crash

  function Mark(b: Bucket, id: ULID): Bucket {
    b.(deleted := b.deleted + {id})
  }

  /** What each step does and when it can happen. */
  ghost predicate Next(w: World, v: Setup, s: State, step: Step, t: State) {
    match step
    case NewBlock(m) => AddsBlock(v, s, m, t)
    case RemoveMarked(id) => RemovesMarked(s, id, t)
    case Sync(kept) => Syncs(s, kept, t)
    case MarkDuplicate(id) => MarksDuplicate(s, id, t)
    case StartJobs(jobs) => Starts(v, s, jobs, t)
    case CompactJob(i, outputs) => Compacts(w, v, s, i, outputs, t)
    case UploadOutput(i, m) => Uploads(s, i, m, t)
    case MarkSource(i, m) => MarksSource(s, i, m, t)
    case MarkEmptySource(i, m) => MarksEmptySource(s, i, m, t)
    case MarkNoCompact(ids) => t == s.(bucket := s.bucket.(noCompact := s.bucket.noCompact + ids))
    case DropJob(i) => Drops(s, i, t)
    case EndIteration => t == s.(memory := Idle)
    case Crash => t == s.(memory := Idle)
  }

  /** Another component uploads a block. */
  ghost predicate AddsBlock(v: Setup, s: State, m: Meta, t: State) {
    Unused(s.bucket, m.ulid) && NotAnOutput(JobsOf(s.memory), m.ulid) && v.good(m) &&
    t == s.(bucket := s.bucket.(blocks := s.bucket.blocks[m.ulid := m]))
  }

  /** The blocks cleaner removes a block marked for deletion. */
  predicate RemovesMarked(s: State, id: ULID, t: State) {
    id in s.bucket.deleted && t == s.(bucket := s.bucket.(blocks := s.bucket.blocks - {id}))
  }

  /** SyncMetas: the blocks not marked for deletion, through the deduplication and no-compact filters. */
  ghost predicate Syncs(s: State, kept: map<ULID, Meta>, t: State) {
    s.memory.Idle? && OnlyDuplicatesRemoved(s.bucket.Live(), kept) &&
    t == State(s.bucket, Synced(s.bucket.Live().Keys - kept.Keys, kept - s.bucket.noCompact))
  }

  /** GarbageCollect marks the duplicates, one at a time. */
  predicate MarksDuplicate(s: State, id: ULID, t: State) {
    s.memory.Synced? && id in s.memory.duplicates &&
    t == State(Mark(s.bucket, id), Synced(s.memory.duplicates - {id}, s.memory.metas - {id}))
  }

  function Started(jobs: seq<Job>): seq<RunningJob> {
    seq(|jobs|, i requires 0 <= i < |jobs| => RunningJob(jobs[i], None, {}))
  }

  /** The jobs planned on the synced blocks are run, or some of them. */
  ghost predicate Starts(v: Setup, s: State, jobs: seq<Job>, t: State) {
    s.memory.Synced? && s.memory.duplicates == {} &&
    (forall j :: j in jobs ==> IsPlannedJob(v.cfg, ValueSet(s.memory.metas), v.ranges, j)) &&
    t == State(s.bucket, Running(Started(jobs)))
  }

  /** The compactor produces the output blocks locally. */
  ghost predicate Compacts(w: World, v: Setup, s: State, i: nat, outputs: set<Meta>, t: State) {
    s.memory.Running? && i < |s.memory.jobs| && s.memory.jobs[i].outputs.None? &&
    CompactorContract(w, s.memory.jobs[i].job, ShardsFor(v.cfg, s.memory.jobs[i].job), outputs) &&
    FreshOutputs(s.bucket, s.memory.jobs, outputs) &&
    t == State(s.bucket, Running(s.memory.jobs[i := s.memory.jobs[i].(outputs := Some(outputs))]))
  }

  predicate Uploads(s: State, i: nat, m: Meta, t: State) {
    s.memory.Running? && i < |s.memory.jobs| && m in OutputsOf(s.memory.jobs[i]) && m !in s.memory.jobs[i].uploaded &&
    t == State(s.bucket.(blocks := s.bucket.blocks[m.ulid := m]),
               Running(s.memory.jobs[i := s.memory.jobs[i].(uploaded := s.memory.jobs[i].uploaded + {m})]))
  }

  /** Sources are marked only after every output was uploaded, of which there is at least one. */
  predicate MarksSource(s: State, i: nat, m: Meta, t: State) {
    s.memory.Running? && i < |s.memory.jobs| && AllUploaded(s.memory.jobs[i]) && OutputsOf(s.memory.jobs[i]) != {} &&
    m in s.memory.jobs[i].job.blocks && t == s.(bucket := Mark(s.bucket, m.ulid))
  }

  /** Without outputs, only sources without samples are marked. */
  predicate MarksEmptySource(s: State, i: nat, m: Meta, t: State) {
    s.memory.Running? && i < |s.memory.jobs| && s.memory.jobs[i].outputs == Some({}) &&
    m in s.memory.jobs[i].job.blocks && m.numSamples == 0 && t == s.(bucket := Mark(s.bucket, m.ulid))
  }

  /** The job is done, or failed, or is not run at all. */
  predicate Drops(s: State, i: nat, t: State) {
    s.memory.Running? && i < |s.memory.jobs| && t == s.(memory := Running(s.memory.jobs[..i] + s.memory.jobs[i + 1..]))
  }

  /** The shard count a job is run with. */
  function ShardsFor(cfg: Config, job: Job): nat {
    EffectiveShardCount(cfg, job.blocks)
  }

  /** Output ULIDs are new and distinct. */
  ghost predicate FreshOutputs(b: Bucket, jobs: seq<RunningJob>, outputs: set<Meta>) {
    (forall m :: m in outputs ==> Unused(b, m.ulid) && NotAnOutput(jobs, m.ulid)) &&
    (forall m, n :: m in outputs && n in outputs && m.ulid == n.ulid ==> m == n)
  }

  // ---------- the invariant ----------

  /** Every piece of a is in one of bs. */
  ghost predicate CoveredIn(has: Content, a: Meta, bs: set<Meta>) {
    forall p :: has(a, p) ==> exists c :: c in bs && has(c, p)
  }

  /** The blocks of a job have one resolution and one shard, agree on being out of order, and are
      unsharded when to be split. */
  predicate OneKind(cfg: Config, job: Job) {
    job.blocks != [] && (job.id.stage.Split? ==> 0 < ShardsFor(cfg, job) <= MAX_UINT64) &&
    forall m :: m in job.blocks ==>
      m.resolution == job.blocks[0].resolution && ShardID(m) == ShardID(job.blocks[0]) &&
      IsOOO(m.labels) == IsOOO(job.blocks[0].labels) && (job.id.stage.Split? ==> ShardID(m) == "")
  }

  ghost predicate JobOK(v: Setup, b: Bucket, j: RunningJob) {
    OneKind(v.cfg, j.job) &&
    (forall m :: m in j.job.blocks ==>
      !Unused(b, m.ulid) && v.good(m) && (m.ulid in b.blocks ==> b.blocks[m.ulid] == m)) &&
    (forall m :: m in OutputsOf(j) ==> v.good(m)) &&
    (j.outputs.Some? ==> forall m :: m in j.job.blocks ==> CoveredIn(v.has, m, j.outputs.value)) &&
    j.uploaded <= OutputsOf(j) &&
    (forall m :: m in j.uploaded ==> m.ulid in b.Live() && b.blocks[m.ulid] == m) &&
    (forall m :: m in OutputsOf(j) && m !in j.uploaded ==> Unused(b, m.ulid))
  }

  /** Outputs are told apart by ULID, within and across jobs, and are no job's sources. */
  ghost predicate Apart(jobs: seq<RunningJob>) {
    (forall k, l, m, n ::
       0 <= k < |jobs| && 0 <= l < |jobs| && m in OutputsOf(jobs[k]) && n in OutputsOf(jobs[l]) && m.ulid == n.ulid ==>
       k == l && m == n) &&
    (forall k, l, m, n :: 0 <= k < |jobs| && 0 <= l < |jobs| && m in OutputsOf(jobs[k]) && n in jobs[l].job.blocks ==>
      m.ulid != n.ulid)
  }

  /** Removing all the duplicates would lose nothing that is in live blocks. */
  ghost predicate Removable(has: Content, live: map<ULID, Meta>, duplicates: set<ULID>) {
    forall id, p :: id in live && has(live[id], p) ==> exists k :: k in live && k !in duplicates && has(live[k], p)
  }

  ghost predicate Inv(v: Setup, s: State) {
    var b := s.bucket;
    Keyed(b.blocks) && (forall id :: id in b.blocks ==> v.good(b.blocks[id])) &&
    match s.memory
    case Idle => true
    case Synced(duplicates, metas) =>
      Removable(v.has, b.Live(), duplicates) && (forall id :: id in duplicates ==> !Unused(b, id)) &&
      forall id :: id in metas ==>
        !Unused(b, id) && (id in b.blocks ==> b.blocks[id] == metas[id]) && v.good(metas[id]) && metas[id].ulid == id
    case Running(jobs) =>
      Apart(jobs) && forall k :: 0 <= k < |jobs| ==> JobOK(v, b, jobs[k])
  }

  // ---------- what the filter and the compactor give ----------

  /** With the counts of Good blocks, the deduplication filter reports only removable blocks. */
  lemma FilterIsRemovable(w: World, v: Setup, live: map<ULID, Meta>, kept: map<ULID, Meta>)
    requires Describes(w, v) && Keyed(live) && OnlyDuplicatesRemoved(live, kept)
    requires forall id :: id in live ==> v.good(live[id])
    ensures Removable(v.has, live, live.Keys - kept.Keys)
  {
    forall id, p | id in live && v.has(live[id], p)
      ensures exists k :: k in live && k !in live.Keys - kept.Keys && v.has(live[k], p)
    {
      assert Has(w, live[id], p);
      GoodCountsAreUniform(w, v, live, id);
      UniformCountsAreRight(Peers(live, id));
      var k := FilterLosesNothing(live, kept, id, p.source, p.hash, w.unknown);
      assert Has(w, live[k], p);
    }
  }

  lemma GoodCountsAreUniform(w: World, v: Setup, live: map<ULID, Meta>, id: ULID)
    requires Describes(w, v) && id in live && forall i :: i in live ==> v.good(live[i])
    ensures UniformCounts(Peers(live, id))
  {
    forall a, b | a in Peers(live, id) && b in Peers(live, id) && ShareSource(a, b)
      ensures SameCount(ShardID(a), ShardID(b))
    {
      var src :| src in a.sources && src in b.sources;
      assert Good(w, v.cfg, v.has, a) && Good(w, v.cfg, v.has, b);
    }
  }

  lemma PlannedIsOneKind(cfg: Config, blocks: set<Meta>, ranges: seq<int>, job: Job)
    requires IsPlannedJob(cfg, blocks, ranges, job)
    ensures OneKind(cfg, job) && forall m :: m in job.blocks ==> m in blocks
  {
    forall m | m in job.blocks ensures KeyOf(m) == KeyOf(job.blocks[0]) && Selects(cfg, job.id, m) && m in blocks {
      assert m in Elements(job.blocks);
    }
    assert Selects(cfg, job.id, job.blocks[0]);
    if job.id.stage.Split? { SplitHasShards(cfg, blocks, ranges, job); }
    forall m | m in job.blocks ensures IsOOO(m.labels) == IsOOO(job.blocks[0].labels) {
      SameKeySameOrder(m, job.blocks[0]);
    }
  }

  lemma SameKeySameOrder(a: Meta, b: Meta)
    requires KeyOf(a) == KeyOf(b)
    ensures IsOOO(a.labels) == IsOOO(b.labels)
  {
    assert SHARD_ID_LABEL[2] != OUT_OF_ORDER_LABEL[2];
    assert IsOOO(KeyOf(a).labels) == IsOOO(a.labels) && IsOOO(KeyOf(b).labels) == IsOOO(b.labels);
  }

  /** The output for a shard has the pieces of that shard. */
  lemma OutputHasPiece(w: World, cfg: Config, job: Job, index: nat, m: Meta, b: Meta, p: Piece)
    requires OneKind(cfg, job) && IsOutput(job, index, ShardsFor(cfg, job), m) && b in job.blocks && Has(w, b, p)
    requires job.id.stage.Split? ==> p.hash % ShardsFor(cfg, job) == index
    ensures Has(w, m, p)
  {
    if job.id.stage.Split? { ParseOfFormat(index, ShardsFor(cfg, job)); }
  }

  /** What the compactor puts out contains everything the job's blocks do. */
  lemma OutputsCover(w: World, v: Setup, job: Job, outputs: set<Meta>, b: Meta)
    requires Describes(w, v) && OneKind(v.cfg, job) && CompactorContract(w, job, ShardsFor(v.cfg, job), outputs) &&
        b in job.blocks
    ensures CoveredIn(v.has, b, outputs)
  {
    var count := ShardsFor(v.cfg, job);
    forall p | v.has(b, p) ensures exists c :: c in outputs && v.has(c, p) {
      assert Has(w, b, p);
      var i := if job.id.stage.Split? then Residue(p.hash, count) else 0;
      assert InOutputShard(job, i, count, p.hash);
      assert !NothingFor(w, job, i, count);
      var m :| m in outputs && IsOutput(job, i, count, m);
      OutputHasPiece(w, v.cfg, job, i, m, b, p);
    }
  }

  /** Outputs are split with the shard count of their sources: when splitting it is the one in the
      settings, when merging the one of the blocks. */
  lemma OutputsAreGood(w: World, v: Setup, job: Job, outputs: set<Meta>, m: Meta)
    requires Describes(w, v) && OneKind(v.cfg, job) && CompactorContract(w, job, ShardsFor(v.cfg, job), outputs) &&
        m in outputs
    requires forall b :: b in job.blocks ==> v.good(b)
    ensures v.good(m)
  {
    var count := ShardsFor(v.cfg, job);
    var shards := if job.id.stage.Split? then count else 1;
    var i: nat :| i < shards && IsOutput(job, i, count, m) && SomethingFor(w, job, i, count);
    if job.id.stage.Split? { ParseOfFormat(i, count); }
    forall src | src in m.sources
      ensures ShardOf(m).Some? ==> ShardOf(m).value.count == w.count(src)
      ensures ShardID(m) == "" && EffectiveShardCount(v.cfg, [m]) > 0 ==>
          w.count(src) == EffectiveShardCount(v.cfg, [m])
    {
      var b :| b in job.blocks && src in b.sources;
      assert Good(w, v.cfg, v.has, b);
    }
    assert Good(w, v.cfg, v.has, m);
  }

  /** An output is never without content. */
  lemma OutputsAreSolid(w: World, v: Setup, job: Job, outputs: set<Meta>, m: Meta)
    requires Describes(w, v) && OneKind(v.cfg, job) && CompactorContract(w, job, ShardsFor(v.cfg, job), outputs) &&
        m in outputs
    ensures v.solid(m)
  {
    var count := ShardsFor(v.cfg, job);
    var shards := if job.id.stage.Split? then count else 1;
    var i: nat :| i < shards && IsOutput(job, i, count, m) && SomethingFor(w, job, i, count);
    var b, p :| b in job.blocks && Has(w, b, p) && InOutputShard(job, i, count, p.hash);
    OutputHasPiece(w, v.cfg, job, i, m, b, p);
    assert Solid(w, m);
  }

  /** No block of the job contains anything. */
  predicate HollowJob(v: Setup, job: Job) {
    forall m :: m in job.blocks ==> !v.solid(m)
  }

  /** The compactor can come back without any output exactly when the blocks contain nothing. */
  lemma EmptyResultIff(w: World, v: Setup, job: Job)
    requires Describes(w, v) && OneKind(v.cfg, job)
    ensures CompactorContract(w, job, ShardsFor(v.cfg, job), {}) <==> HollowJob(v, job)
  {
    if CompactorContract(w, job, ShardsFor(v.cfg, job), {}) {
      forall m | m in job.blocks ensures !v.solid(m) {
        OutputsCover(w, v, job, {}, m);
        assert Solid(w, m) ==> exists p :: Has(w, m, p) && v.has(m, p);
      }
    }
    if HollowJob(v, job) {
      forall b, p | b in job.blocks ensures !Has(w, b, p) { assert !Solid(w, b); }
    }
  }

  // ---------- every step keeps the invariant ----------

  /** Used ULIDs stay used, and blocks only appear under unused ones. */
  ghost predicate Evolves(b: Bucket, b': Bucket) {
    (forall id :: !Unused(b, id) ==> !Unused(b', id)) &&
    (forall id :: id in b'.blocks ==> (id in b.blocks && b'.blocks[id] == b.blocks[id]) || Unused(b, id))
  }

  lemma JobStaysOK(v: Setup, b: Bucket, b': Bucket, j: RunningJob)
    requires JobOK(v, b, j) && Evolves(b, b')
    requires forall m :: m in j.uploaded ==> m.ulid in b'.Live() && b'.blocks[m.ulid] == m
    requires forall m :: m in OutputsOf(j) && m !in j.uploaded ==> Unused(b', m.ulid)
    ensures JobOK(v, b', j)
  {
  }

  lemma RemovableWithNew(has: Content, live: map<ULID, Meta>, duplicates: set<ULID>, id: ULID, m: Meta)
    requires Removable(has, live, duplicates) && id !in live && id !in duplicates
    ensures Removable(has, live[id := m], duplicates)
  {
    var live' := live[id := m];
    forall i, p | i in live' && has(live'[i], p)
      ensures exists k :: k in live' && k !in duplicates && has(live'[k], p)
    {
      if i != id {
        var k :| k in live && k !in duplicates && has(live[k], p);
        assert live'[k] == live[k];
      }
    }
  }

  lemma RemovableWithoutOne(has: Content, live: map<ULID, Meta>, duplicates: set<ULID>, id: ULID)
    requires Removable(has, live, duplicates) && id in duplicates
    ensures Removable(has, live - {id}, duplicates - {id})
  {
    var live' := live - {id};
    forall i, p | i in live' && has(live'[i], p)
      ensures exists k :: k in live' && k !in duplicates - {id} && has(live'[k], p)
    {
      var k :| k in live && k !in duplicates && has(live[k], p);
      assert live'[k] == live[k];
    }
  }

  lemma InvAfterNewBlock(v: Setup, s: State, m: Meta, t: State)
    requires Inv(v, s) && Unused(s.bucket, m.ulid) && NotAnOutput(JobsOf(s.memory), m.ulid) && v.good(m)
    requires t == s.(bucket := s.bucket.(blocks := s.bucket.blocks[m.ulid := m]))
    ensures Inv(v, t)
  {
    var b, b' := s.bucket, t.bucket;
    if s.memory.Synced? {
      assert b'.Live() == b.Live()[m.ulid := m];
      RemovableWithNew(v.has, b.Live(), s.memory.duplicates, m.ulid, m);
    }
    if s.memory.Running? {
      forall k | 0 <= k < |s.memory.jobs| ensures JobOK(v, b', s.memory.jobs[k]) {
        JobStaysOK(v, b, b', s.memory.jobs[k]);
      }
    }
  }

  lemma InvAfterRemoveMarked(v: Setup, s: State, id: ULID, t: State)
    requires Inv(v, s) && id in s.bucket.deleted && t == s.(bucket := s.bucket.(blocks := s.bucket.blocks - {id}))
    ensures Inv(v, t)
  {
    var b, b' := s.bucket, t.bucket;
    assert b'.Live() == b.Live();
    if s.memory.Running? {
      forall k | 0 <= k < |s.memory.jobs| ensures JobOK(v, b', s.memory.jobs[k]) {
        JobStaysOK(v, b, b', s.memory.jobs[k]);
      }
    }
  }

  /** The kept blocks are among the live ones, unchanged. */
  lemma KeptAreLive(live: map<ULID, Meta>, kept: map<ULID, Meta>)
    requires OnlyDuplicatesRemoved(live, kept)
    ensures forall id :: id in kept ==> id in live && kept[id] == live[id]
  {
  }

  lemma InvAfterSync(w: World, v: Setup, s: State, kept: map<ULID, Meta>, t: State)
    requires Describes(w, v) && Inv(v, s) && OnlyDuplicatesRemoved(s.bucket.Live(), kept)
    requires t == State(s.bucket, Synced(s.bucket.Live().Keys - kept.Keys, kept - s.bucket.noCompact))
    ensures Inv(v, t)
  {
    FilterIsRemovable(w, v, s.bucket.Live(), kept);
    KeptAreLive(s.bucket.Live(), kept);
    InvSynced(v, s.bucket, kept, t);
  }

  lemma InvSynced(v: Setup, b: Bucket, kept: map<ULID, Meta>, t: State)
    requires Keyed(b.blocks) && forall id :: id in b.blocks ==> v.good(b.blocks[id])
    requires Removable(v.has, b.Live(), b.Live().Keys - kept.Keys)
    requires forall id :: id in kept ==> id in b.Live() && kept[id] == b.Live()[id]
    requires t == State(b, Synced(b.Live().Keys - kept.Keys, kept - b.noCompact))
    ensures Inv(v, t)
  {
  }

  lemma InvAfterMarkDuplicate(v: Setup, s: State, id: ULID, t: State)
    requires Inv(v, s) && s.memory.Synced? && id in s.memory.duplicates
    requires t == State(Mark(s.bucket, id), Synced(s.memory.duplicates - {id}, s.memory.metas - {id}))
    ensures Inv(v, t)
  {
    assert t.bucket.Live() == s.bucket.Live() - {id};
    RemovableWithoutOne(v.has, s.bucket.Live(), s.memory.duplicates, id);
  }

  lemma InvAfterStart(v: Setup, s: State, jobs: seq<Job>, t: State)
    requires Inv(v, s) && s.memory.Synced?
    requires forall j :: j in jobs ==> IsPlannedJob(v.cfg, ValueSet(s.memory.metas), v.ranges, j)
    requires t == State(s.bucket, Running(Started(jobs)))
    ensures Inv(v, t)
  {
    var running := t.memory.jobs;
    forall k | 0 <= k < |running| ensures JobOK(v, t.bucket, running[k]) && OutputsOf(running[k]) == {} {
      assert jobs[k] in jobs && running[k].job == jobs[k];
      PlannedIsOneKind(v.cfg, ValueSet(s.memory.metas), v.ranges, jobs[k]);
    }
  }

  lemma InvAfterCompact(w: World, v: Setup, s: State, i: nat, outputs: set<Meta>, t: State)
    requires Describes(w, v) && Inv(v, s) && s.memory.Running? && i < |s.memory.jobs| && s.memory.jobs[i].outputs.None?
    requires CompactorContract(w, s.memory.jobs[i].job, ShardsFor(v.cfg, s.memory.jobs[i].job), outputs)
    requires FreshOutputs(s.bucket, s.memory.jobs, outputs)
    requires t == State(s.bucket, Running(s.memory.jobs[i := s.memory.jobs[i].(outputs := Some(outputs))]))
    ensures Inv(v, t)
  {
    var job := s.memory.jobs[i].job;
    assert JobOK(v, s.bucket, s.memory.jobs[i]);
    assert Suits(v, job, outputs) by {
      forall m | m in job.blocks ensures CoveredIn(v.has, m, outputs) { OutputsCover(w, v, job, outputs, m); }
      forall m | m in outputs ensures v.good(m) { OutputsAreGood(w, v, job, outputs, m); }
    }
    InvWithOutputs(v, s, i, outputs, t);
  }

  /** The outputs are good and have all the job's blocks have. */
  ghost predicate Suits(v: Setup, job: Job, outputs: set<Meta>) {
    (forall m :: m in job.blocks ==> CoveredIn(v.has, m, outputs)) && forall m :: m in outputs ==> v.good(m)
  }

  lemma InvWithOutputs(v: Setup, s: State, i: nat, outputs: set<Meta>, t: State)
    requires Inv(v, s) && s.memory.Running? && i < |s.memory.jobs| && s.memory.jobs[i].outputs.None?
    requires Suits(v, s.memory.jobs[i].job, outputs) && FreshOutputs(s.bucket, s.memory.jobs, outputs)
    requires t == State(s.bucket, Running(s.memory.jobs[i := s.memory.jobs[i].(outputs := Some(outputs))]))
    ensures Inv(v, t)
  {
    var jobs, jobs' := s.memory.jobs, t.memory.jobs;
    assert JobOK(v, s.bucket, jobs[i]);
    forall k | 0 <= k < |jobs'| ensures JobOK(v, t.bucket, jobs'[k]) {
      if k != i { assert jobs'[k] == jobs[k]; }
    }
    forall l, n | 0 <= l < |jobs| && n in jobs[l].job.blocks ensures !Unused(s.bucket, n.ulid) {
      assert JobOK(v, s.bucket, jobs[l]);
    }
    ApartWithFresh(s.bucket, jobs, i, outputs);
  }

  lemma ApartWithFresh(b: Bucket, jobs: seq<RunningJob>, i: nat, outputs: set<Meta>)
    requires Apart(jobs) && i < |jobs| && jobs[i].outputs.None? && FreshOutputs(b, jobs, outputs)
    requires forall l, n :: 0 <= l < |jobs| && n in jobs[l].job.blocks ==> !Unused(b, n.ulid)
    ensures Apart(jobs[i := jobs[i].(outputs := Some(outputs))])
  {
    var jobs' := jobs[i := jobs[i].(outputs := Some(outputs))];
    forall k, l, m, n | 0 <= k < |jobs'| && 0 <= l < |jobs'| && m in OutputsOf(jobs'[k]) && n in OutputsOf(jobs'[l]) &&
      m.ulid == n.ulid
      ensures k == l && m == n
    {
      assert k != i ==> m in OutputsOf(jobs[k]);
      assert l != i ==> n in OutputsOf(jobs[l]);
    }
    forall k, l, m, n | 0 <= k < |jobs'| && 0 <= l < |jobs'| && m in OutputsOf(jobs'[k]) && n in jobs'[l].job.blocks
      ensures m.ulid != n.ulid
    {
      assert n in jobs[l].job.blocks;
      assert k != i ==> m in OutputsOf(jobs[k]);
    }
  }

  lemma InvAfterUpload(v: Setup, s: State, i: nat, m: Meta, t: State)
    requires Inv(v, s) && s.memory.Running? && i < |s.memory.jobs|
    requires m in OutputsOf(s.memory.jobs[i]) && m !in s.memory.jobs[i].uploaded
    requires t == State(s.bucket.(blocks := s.bucket.blocks[m.ulid := m]),
                        Running(s.memory.jobs[i := s.memory.jobs[i].(uploaded := s.memory.jobs[i].uploaded + {m})]))
    ensures Inv(v, t)
  {
    var b, b', jobs, jobs' := s.bucket, t.bucket, s.memory.jobs, t.memory.jobs;
    assert JobOK(v, b, jobs[i]) && Unused(b, m.ulid);
    forall k | 0 <= k < |jobs'| ensures JobOK(v, b', jobs'[k]) {
      assert JobOK(v, b, jobs[k]);
      if k == i { UploadedJobOK(v, b, jobs[i], m); } else { OtherJobOK(v, b, jobs[k], m); }
    }
    SameOutputs(jobs, jobs');
  }

  lemma UploadedJobOK(v: Setup, b: Bucket, j: RunningJob, m: Meta)
    requires JobOK(v, b, j) && m in OutputsOf(j) && m !in j.uploaded
    requires forall n :: n in OutputsOf(j) && n.ulid == m.ulid ==> n == m
    ensures JobOK(v, b.(blocks := b.blocks[m.ulid := m]), j.(uploaded := j.uploaded + {m}))
  {
  }

  lemma OtherJobOK(v: Setup, b: Bucket, j: RunningJob, m: Meta)
    requires JobOK(v, b, j) && Unused(b, m.ulid) && forall n :: n in OutputsOf(j) ==> n.ulid != m.ulid
    ensures JobOK(v, b.(blocks := b.blocks[m.ulid := m]), j)
  {
  }

  lemma SameOutputs(jobs: seq<RunningJob>, jobs': seq<RunningJob>)
    requires Apart(jobs) && |jobs'| == |jobs|
    requires forall k :: 0 <= k < |jobs| ==> OutputsOf(jobs'[k]) == OutputsOf(jobs[k]) && jobs'[k].job == jobs[k].job
    ensures Apart(jobs')
  {
  }

  /** Marking a source, of whatever job, leaves all uploaded outputs alone. */
  lemma InvAfterMarkSource(v: Setup, s: State, i: nat, m: Meta, t: State)
    requires Inv(v, s) && s.memory.Running? && i < |s.memory.jobs| && m in s.memory.jobs[i].job.blocks
    requires t == s.(bucket := Mark(s.bucket, m.ulid))
    ensures Inv(v, t)
  {
    var b, b', jobs := s.bucket, t.bucket, s.memory.jobs;
    assert JobOK(v, b, jobs[i]) && !Unused(b, m.ulid);
    forall k | 0 <= k < |jobs| ensures JobOK(v, b', jobs[k]) {
      assert JobOK(v, b, jobs[k]);
      forall n | n in OutputsOf(jobs[k]) ensures n.ulid != m.ulid { }
      JobStaysOK(v, b, b', jobs[k]);
    }
  }

  lemma InvAfterDrop(v: Setup, s: State, i: nat, t: State)
    requires Inv(v, s) && s.memory.Running? && i < |s.memory.jobs|
    requires t == s.(memory := Running(s.memory.jobs[..i] + s.memory.jobs[i + 1..]))
    ensures Inv(v, t)
  {
    var jobs, jobs' := s.memory.jobs, t.memory.jobs;
    forall k | 0 <= k < |jobs'| ensures JobOK(v, t.bucket, jobs'[k]) {
      assert JobOK(v, s.bucket, jobs[if k < i then k else k + 1]);
    }
    ApartWithoutOne(jobs, i);
  }

  lemma ApartWithoutOne(jobs: seq<RunningJob>, i: nat)
    requires Apart(jobs) && i < |jobs|
    ensures Apart(jobs[..i] + jobs[i + 1..])
  {
    var jobs' := jobs[..i] + jobs[i + 1..];
    forall k | 0 <= k < |jobs'| ensures jobs'[k] == jobs[if k < i then k else k + 1] { }
  }

  lemma InvAfterNoCompact(v: Setup, s: State, ids: set<ULID>, t: State)
    requires Inv(v, s) && t == s.(bucket := s.bucket.(noCompact := s.bucket.noCompact + ids))
    ensures Inv(v, t)
  {
    var b, b' := s.bucket, t.bucket;
    assert b'.Live() == b.Live() && Evolves(b, b');
    if s.memory.Running? {
      forall k | 0 <= k < |s.memory.jobs| ensures JobOK(v, b', s.memory.jobs[k]) {
        assert JobOK(v, b, s.memory.jobs[k]);
        JobStaysOK(v, b, b', s.memory.jobs[k]);
      }
    }
  }

  /** Every step keeps the invariant. */
  lemma StepKeepsInv(w: World, v: Setup, s: State, step: Step, t: State)
    requires Describes(w, v) && Inv(v, s) && Next(w, v, s, step, t)
    ensures Inv(v, t)
  {
    match step
    case NewBlock(m) => InvAfterNewBlock(v, s, m, t);
    case RemoveMarked(id) => InvAfterRemoveMarked(v, s, id, t);
    case Sync(kept) => InvAfterSync(w, v, s, kept, t);
    case MarkDuplicate(id) => InvAfterMarkDuplicate(v, s, id, t);
    case StartJobs(jobs) => InvAfterStart(v, s, jobs, t);
    case CompactJob(i, outputs) => InvAfterCompact(w, v, s, i, outputs, t);
    case UploadOutput(i, m) => InvAfterUpload(v, s, i, m, t);
    case MarkSource(i, m) => InvAfterMarkSource(v, s, i, m, t);
    case MarkEmptySource(i, m) => InvAfterMarkSource(v, s, i, m, t);
    case MarkNoCompact(ids) => InvAfterNoCompact(v, s, ids, t);
    case DropJob(i) => InvAfterDrop(v, s, i, t);
    case EndIteration =>
    case Crash =>
  }

  // ---------- no step loses data ----------

  lemma StillStored(has: Content, b: Bucket, b': Bucket, p: Piece, id: ULID)
    requires id in b.Live() && has(b.Live()[id], p) && id in b'.Live() && b'.Live()[id] == b.Live()[id]
    ensures Stored(has, b', p)
  {
  }

  /** Marking a duplicate loses nothing: the piece is in a live block that is no duplicate. */
  lemma DataAfterMarkDuplicate(v: Setup, s: State, id: ULID, p: Piece)
    requires Inv(v, s) && s.memory.Synced? && id in s.memory.duplicates && Stored(v.has, s.bucket, p)
    ensures Stored(v.has, Mark(s.bucket, id), p)
  {
    var i :| i in s.bucket.Live() && v.has(s.bucket.Live()[i], p);
    var k :| k in s.bucket.Live() && k !in s.memory.duplicates && v.has(s.bucket.Live()[k], p);
    StillStored(v.has, s.bucket, Mark(s.bucket, id), p, k);
  }

  /** Marking a source loses nothing: its pieces are in uploaded outputs. */
  lemma DataAfterMarkSource(v: Setup, s: State, i: nat, m: Meta, p: Piece)
    requires Inv(v, s) && s.memory.Running? && i < |s.memory.jobs| && AllUploaded(s.memory.jobs[i]) &&
        m in s.memory.jobs[i].job.blocks
    requires Stored(v.has, s.bucket, p)
    ensures Stored(v.has, Mark(s.bucket, m.ulid), p)
  {
    var b, j := s.bucket, s.memory.jobs[i];
    var id :| id in b.Live() && v.has(b.Live()[id], p);
    assert JobOK(v, b, j);
    if id == m.ulid {
      assert CoveredIn(v.has, m, j.outputs.value);
      var c :| c in j.outputs.value && v.has(c, p);
      assert c in OutputsOf(j) && c.ulid != m.ulid;
      StillStored(v.has, b, Mark(b, m.ulid), p, c.ulid);
    } else {
      StillStored(v.has, b, Mark(b, m.ulid), p, id);
    }
  }

  lemma DataAfterMarkEmpty(w: World, v: Setup, s: State, i: nat, m: Meta, p: Piece)
    requires Describes(w, v) && Inv(v, s) && s.memory.Running? && i < |s.memory.jobs| &&
        m in s.memory.jobs[i].job.blocks && m.numSamples == 0
    requires Stored(v.has, s.bucket, p)
    ensures Stored(v.has, Mark(s.bucket, m.ulid), p)
  {
    var b, j := s.bucket, s.memory.jobs[i];
    var id :| id in b.Live() && v.has(b.Live()[id], p);
    assert JobOK(v, b, j) && Good(w, v.cfg, v.has, m);
    StillStored(v.has, b, Mark(b, m.ulid), p, id);
  }

  predicate LivesOn(b: Bucket, b': Bucket, id: ULID) {
    id in b.Live() ==> id in b'.Live() && b'.Live()[id] == b.Live()[id]
  }

  lemma LivesOnWithNew(b: Bucket, m: Meta, id: ULID)
    requires Unused(b, m.ulid)
    ensures LivesOn(b, b.(blocks := b.blocks[m.ulid := m]), id)
  {
  }

  lemma LivesOnWithoutMarked(b: Bucket, gone: ULID, id: ULID)
    requires gone in b.deleted
    ensures LivesOn(b, b.(blocks := b.blocks - {gone}), id)
  {
  }

  /** The steps that mark nothing leave every live block as it is. */
  lemma LiveStays(w: World, v: Setup, s: State, step: Step, t: State, id: ULID)
    requires Inv(v, s) && Next(w, v, s, step, t)
    requires !step.MarkDuplicate? && !step.MarkSource? && !step.MarkEmptySource?
    ensures LivesOn(s.bucket, t.bucket, id)
  {
    match step
    case NewBlock(m) => LivesOnWithNew(s.bucket, m, id);
    case RemoveMarked(gone) => LivesOnWithoutMarked(s.bucket, gone, id);
    case UploadOutput(i, m) =>
      assert JobOK(v, s.bucket, s.memory.jobs[i]);
      LivesOnWithNew(s.bucket, m, id);
    case _ =>
  }

  /** What is stored before a step is stored after it. */
  lemma StepKeepsData(w: World, v: Setup, s: State, step: Step, t: State, p: Piece)
    requires Describes(w, v) && Inv(v, s) && Next(w, v, s, step, t) && Stored(v.has, s.bucket, p)
    ensures Stored(v.has, t.bucket, p)
  {
    match step
    case MarkDuplicate(d) => DataAfterMarkDuplicate(v, s, d, p);
    case MarkSource(i, m) => DataAfterMarkSource(v, s, i, m, p);
    case MarkEmptySource(i, m) => DataAfterMarkEmpty(w, v, s, i, m, p);
    case _ =>
      var id :| id in s.bucket.Live() && v.has(s.bucket.Live()[id], p);
      LiveStays(w, v, s, step, t, id);
  }

  // ---------- whole runs ----------

  /** Every state of the run follows from the one before by some step. */
  ghost predicate IsRun(w: World, v: Setup, run: seq<State>) {
    forall k :: 0 < k < |run| ==> Follows(w, v, run[k - 1], run[k])
  }

  ghost predicate Follows(w: World, v: Setup, s: State, t: State) {
    exists step :: Next(w, v, s, step, t)
  }

  lemma FollowerKeepsInv(w: World, v: Setup, s: State, t: State)
    requires Describes(w, v) && Inv(v, s) && Follows(w, v, s, t)
    ensures Inv(v, t)
  {
    var step :| Next(w, v, s, step, t);
    StepKeepsInv(w, v, s, step, t);
  }

  lemma FollowerKeepsData(w: World, v: Setup, s: State, t: State, p: Piece)
    requires Describes(w, v) && Inv(v, s) && Follows(w, v, s, t) && Stored(v.has, s.bucket, p)
    ensures Stored(v.has, t.bucket, p)
  {
    var step :| Next(w, v, s, step, t);
    StepKeepsData(w, v, s, step, t, p);
  }

  lemma {:induction false} RunKeepsInv(w: World, v: Setup, run: seq<State>, k: nat)
    requires Describes(w, v) && IsRun(w, v, run) && k < |run| && Inv(v, run[0])
    ensures Inv(v, run[k])
  {
    if k > 0 {
      RunKeepsInv(w, v, run, k - 1);
      FollowerKeepsInv(w, v, run[k - 1], run[k]);
    }
  }

  lemma {:induction false} NothingLostBetween(w: World, v: Setup, run: seq<State>, i: nat, k: nat, p: Piece)
    requires Describes(w, v) && IsRun(w, v, run) && i <= k < |run| && Inv(v, run[0]) && Stored(v.has, run[i].bucket, p)
    ensures Stored(v.has, run[k].bucket, p)
    decreases k
  {
    if i < k {
      NothingLostBetween(w, v, run, i, k - 1, p);
      RunKeepsInv(w, v, run, k - 1);
      FollowerKeepsData(w, v, run[k - 1], run[k], p);
    }
  }

  /** No data is lost: over every run, from any state of it to any later one, whatever the
      interleaving of jobs and wherever the compactor crashes, every piece that was in a live block still
      is. */
  lemma NoDataIsLost(w: World, v: Setup, run: seq<State>, i: nat, k: nat, p: Piece)
    requires Describes(w, v) && IsRun(w, v, run) && i <= k < |run|
    requires Keyed(run[0].bucket.blocks) && run[0].memory.Idle?
    requires forall id :: id in run[0].bucket.blocks ==> v.good(run[0].bucket.blocks[id])
    requires Stored(v.has, run[i].bucket, p)
    ensures Stored(v.has, run[k].bucket, p)
  {
    NothingLostBetween(w, v, run, i, k, p);
  }
}
