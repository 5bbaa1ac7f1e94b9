/** Compaction jobs as the compactor runs them: Groups, AppendMeta, and the job orders. */
module Jobs {
  import opened Util
  import opened Sharding
  import opened Block
  import opened Sorting
  import opened Sequences
  import opened Arithmetic
  import opened Ranges
  import opened PlanSpec
  import opened Grouper
  import opened Planner
  import opened Plan
  import opened Text

  const MAX_INT64: int := 0x7FFF_FFFF_FFFF_FFFF

  /** A compaction job: the blocks to compact together. */
  class CompactionJob {
    const userID: string
    const key: string
    const labels: map<string, string>
    const resolution: int
    const useSplitting: bool
    const splitNumShards: nat
    const shardingKey: string

    var metasByMinTime: seq<Meta>

    constructor (userID: string, key: string, labels: map<string, string>, resolution: int, useSplitting: bool,
                 splitNumShards: nat, shardingKey: string)
      ensures this.userID == userID && this.key == key && this.labels == labels && this.resolution == resolution
      ensures this.useSplitting == useSplitting && this.splitNumShards == splitNumShards &&
          this.shardingKey == shardingKey
      ensures metasByMinTime == []
    {
      this.userID, this.key, this.labels, this.resolution := userID, key, labels, resolution;
      this.useSplitting, this.splitNumShards, this.shardingKey := useSplitting, splitNumShards, shardingKey;
      metasByMinTime := [];
    }

    /** Adds a block of the job's labels and resolution and sorts again; refuses any other. */
    method AppendMeta(meta: Meta) returns (ok: bool)
      modifies this
      ensures ok <==> meta.labels == labels && meta.resolution == resolution
      ensures ok ==>
          multiset(metasByMinTime) == old(multiset(metasByMinTime)) + multiset{meta} &&
          SortedBy(metasByMinTime, StartsNoLater)
      ensures !ok ==> metasByMinTime == old(metasByMinTime)
    {
      if labels != meta.labels {
        return false;
      }
      if resolution != meta.resolution {
        return false;
      }
      metasByMinTime := SortMetasByMinTime(metasByMinTime + [meta]);
      return true;
    }

    method MinTime() returns (t: int)
      requires SortedBy(metasByMinTime, StartsNoLater)
      ensures t == FirstStart(metasByMinTime)
      ensures metasByMinTime != [] ==>
          StartsFirst(Elements(metasByMinTime), metasByMinTime[0]) && t == metasByMinTime[0].minTime
    {
      t := if |metasByMinTime| > 0 then metasByMinTime[0].minTime else MAX_INT64;
    }

    method MaxTime() returns (t: int)
      ensures t == LastEnd(metasByMinTime)
    {
      t := MIN_INT64;
      for i := 0 to |metasByMinTime|
        invariant t == LastEnd(metasByMinTime[..i])
      {
        assert metasByMinTime[..i + 1][..i] == metasByMinTime[..i];
        if metasByMinTime[i].maxTime > t {
          t := metasByMinTime[i].maxTime;
        }
      }
      assert metasByMinTime[..|metasByMinTime|] == metasByMinTime;
    }
  }

  /** The start of the first block. */
  function FirstStart(metas: seq<Meta>): int {
    if metas == [] then MAX_INT64 else metas[0].minTime
  }

  /** The highest end of all blocks. */
  function LastEnd(metas: seq<Meta>): (t: int)
    ensures t >= MIN_INT64 && (forall m :: m in metas ==> m.maxTime <= t)
    ensures t == MIN_INT64 || exists m :: m in metas && m.maxTime == t
  {
    if metas == [] then MIN_INT64
    else
      var init, last := metas[..|metas| - 1], metas[|metas| - 1];
      assert metas == init + [last];
      if last.maxTime > LastEnd(init) then last.maxTime else LastEnd(init)
  }

  // ---------- group keys ----------

  /** The identifier of a job. */
  function GroupKey(labelHash: map<string, string> -> nat, key: Key, id: JobID): string {
    GroupText(labelHash, key) + "-" + StageText(id.stage) + "-" + id.shardID + "-" + IntText(id.rangeStart) + "-" +
      IntText(id.rangeEnd)
  }

  lemma StageTextIsReadable(a: Stage, b: Stage)
    ensures '-' !in StageText(a) && (StageText(a) == StageText(b) ==> a == b)
  {
    assert "split"[0] != "merge"[0];
  }

  /** The text of a key, bracketed from the right. */
  lemma KeyFromTheRight(r: string, g: string, st: string, sh: string, x: string, y: string)
    ensures (r + "@" + g) + "-" + st + "-" + sh + "-" + x + "-" + y == r + "@" +
        (g + "-" + (st + "-" + (sh + "-" + (x + "-" + y))))
  {
  }

  lemma CutThree(g: string, st: string, sh: string, x: string, g': string, st': string, sh': string, x': string)
    requires '-' !in g && '-' !in st && '-' !in sh && '-' !in g' && '-' !in st' && '-' !in sh'
    requires g + "-" + (st + "-" + (sh + "-" + x)) == g' + "-" + (st' + "-" + (sh' + "-" + x'))
    ensures g == g' && st == st' && sh == sh' && x == x'
  {
    CutIsUnique(g, st + "-" + (sh + "-" + x), g', st' + "-" + (sh' + "-" + x'), '-');
    CutIsUnique(st, sh + "-" + x, st', sh' + "-" + x', '-');
    CutIsUnique(sh, x, sh', x', '-');
  }

  /** A group key determines the resolution, label hash, stage, shard and range it was built from, for
      shard IDs without hyphens. */
  lemma GroupKeyIsInjective(h: map<string, string> -> nat, k: Key, a: JobID, l: Key, b: JobID)
    requires '-' !in a.shardID && '-' !in b.shardID && GroupKey(h, k, a) == GroupKey(h, l, b)
    ensures a == b && k.resolution == l.resolution && h(k.labels) == h(l.labels)
  {
    var ta, tb := IntText(a.rangeStart) + "-" + IntText(a.rangeEnd), IntText(b.rangeStart) + "-" + IntText(b.rangeEnd);
    var ga := Decimal(h(k.labels)) + "-" + (StageText(a.stage) + "-" + (a.shardID + "-" + ta));
    var gb := Decimal(h(l.labels)) + "-" + (StageText(b.stage) + "-" + (b.shardID + "-" + tb));
    assert IntText(k.resolution) + "@" + ga == IntText(l.resolution) + "@" + gb by {
      KeyFromTheRight(IntText(k.resolution), Decimal(h(k.labels)), StageText(a.stage), a.shardID, IntText(a.rangeStart),
        IntText(a.rangeEnd));
      KeyFromTheRight(IntText(l.resolution), Decimal(h(l.labels)), StageText(b.stage), b.shardID, IntText(b.rangeStart),
        IntText(b.rangeEnd));
    }
    IntTextCut(k.resolution, ga, l.resolution, gb, '@');
    DecimalHasOnlyDigits(h(k.labels));
    DecimalHasOnlyDigits(h(l.labels));
    StageTextIsReadable(a.stage, b.stage);
    StageTextIsReadable(b.stage, a.stage);
    CutThree(Decimal(h(k.labels)), StageText(a.stage), a.shardID, ta, Decimal(h(l.labels)), StageText(b.stage),
      b.shardID, tb);
    DecimalIsInjective(h(k.labels), h(l.labels));
    IntTextCut(a.rangeStart, IntText(a.rangeEnd), b.rangeStart, IntText(b.rangeEnd), '-');
    IntTextIsInjective(a.rangeEnd, b.rangeEnd);
  }

  lemma FormatHasNoHyphen(i: nat, n: nat)
    ensures '-' !in FormatShardID(i, n)
  {
    DecimalHasOnlyDigits(i + 1);
    DecimalHasOnlyDigits(n);
  }

  /** The shard ID of a planned job is free of hyphens when the shard labels of its blocks are. */
  lemma PlannedShardHasNoHyphen(cfg: Config, blocks: set<Meta>, ranges: seq<int>, job: Job)
    requires IsPlannedJob(cfg, blocks, ranges, job) && forall m :: m in blocks ==> '-' !in ShardID(m)
    ensures '-' !in job.id.shardID
  {
    var m := job.blocks[0];
    assert m in Elements(job.blocks);
    if job.id.stage.Split? { FormatHasNoHyphen(cfg.hash(m.ulid) % SplitGroups(cfg), SplitGroups(cfg)); }
  }

  /** What group keys need in order to tell jobs apart. */
  ghost predicate Telling(blocks: set<Meta>, h: map<string, string> -> nat) {
    (forall a, b :: a in blocks && b in blocks && h(KeyOf(a).labels) == h(KeyOf(b).labels) ==>
      KeyOf(a).labels == KeyOf(b).labels) &&
    forall m :: m in blocks ==> '-' !in ShardID(m)
  }

  /** Distinct jobs of a plan have distinct group keys, when the label hash tells the main groups apart
      and shard labels have no hyphen. */
  lemma GroupKeysAreDistinct(cfg: Config, blocks: set<Meta>, ranges: seq<int>, highest: int, now: int, jobs: seq<Job>,
                             h: map<string, string> -> nat, i: nat, j: nat)
    requires IsRipePlan(cfg, blocks, ranges, highest, now, jobs) && i < |jobs| && j < |jobs| && i != j
    requires Telling(blocks, h)
    ensures GroupKey(h, FirstKey(jobs[i]), jobs[i].id) != GroupKey(h, FirstKey(jobs[j]), jobs[j].id)
  {
    var a, b := jobs[i], jobs[j];
    assert a in jobs && b in jobs;
    PlannedShardHasNoHyphen(cfg, blocks, ranges, a);
    PlannedShardHasNoHyphen(cfg, blocks, ranges, b);
    assert a.blocks[0] in Elements(a.blocks) && b.blocks[0] in Elements(b.blocks);
    if GroupKey(h, FirstKey(a), a.id) == GroupKey(h, FirstKey(b), b.id) {
      GroupKeyIsInjective(h, FirstKey(a), a.id, FirstKey(b), b.id);
    }
  }

  // ---------- Groups ----------

  /** All blocks of the job carry the shard label, or none does. */
  predicate ShardLabelAgrees(blocks: seq<Meta>) {
    forall m :: m in blocks ==> (SHARD_ID_LABEL in m.labels <==> SHARD_ID_LABEL in blocks[0].labels)
  }

  /** The blocks of a planned job differ in labels only where one has an empty shard label and another
      has none. */
  lemma LabelsAgreeIff(cfg: Config, blocks: set<Meta>, ranges: seq<int>, job: Job, m: Meta)
    requires IsPlannedJob(cfg, blocks, ranges, job) && m in job.blocks
    ensures m.resolution == job.blocks[0].resolution
    ensures m.labels == job.blocks[0].labels <==>
        (SHARD_ID_LABEL in m.labels <==> SHARD_ID_LABEL in job.blocks[0].labels)
  {
    var f := job.blocks[0];
    assert m in Elements(job.blocks) && f in Elements(job.blocks);
    assert KeyOf(m) == KeyOf(f) && ShardID(m) == ShardID(f);
    if SHARD_ID_LABEL in m.labels <==> SHARD_ID_LABEL in f.labels {
      forall k | k in m.labels ensures k in f.labels && f.labels[k] == m.labels[k] {
        if k != SHARD_ID_LABEL { assert k in KeyOf(m).labels && KeyOf(m).labels[k] == m.labels[k]; }
      }
      forall k | k in f.labels ensures k in m.labels {
        if k != SHARD_ID_LABEL { assert k in KeyOf(f).labels; }
      }
      assert m.labels == f.labels;
    }
  }

  // ---------- when Groups fails ----------

  /** The shard label is not there with an empty value. */
  predicate NoEmptyShardLabel(m: Meta) {
    SHARD_ID_LABEL in m.labels ==> m.labels[SHARD_ID_LABEL] != ""
  }

  /** One block has the shard label and another has not. */
  ghost predicate Mixed(blocks: set<Meta>) {
    exists a, b :: a in blocks && b in blocks && SHARD_ID_LABEL in a.labels && SHARD_ID_LABEL !in b.labels
  }

  /** Some ripe job would have blocks with the shard label and blocks without. */
  ghost predicate MixesLabels(cfg: Config, blocks: set<Meta>, ranges: seq<int>, highest: int, now: int) {
    exists key, id :: InPlan(cfg, blocks, ranges, key, id) && RipeInGroup(cfg, blocks, key, id, highest, now) &&
                      Mixed(Selected(cfg, id, MainGroup(blocks, key)))
  }

  lemma AgreesIffNotMixed(blocks: seq<Meta>)
    requires blocks != []
    ensures ShardLabelAgrees(blocks) <==> !Mixed(Elements(blocks))
  {
    assert blocks[0] in Elements(blocks);
    if !ShardLabelAgrees(blocks) {
      var m :| m in blocks && !(SHARD_ID_LABEL in m.labels <==> SHARD_ID_LABEL in blocks[0].labels);
      assert m in Elements(blocks);
    }
  }

  /** Whether a planned job has such blocks can be told from the blocks before planning. */
  lemma MixedJobIff(cfg: Config, blocks: set<Meta>, ranges: seq<int>, highest: int, now: int, planned: seq<Job>)
    requires IsRipePlan(cfg, blocks, ranges, highest, now, planned)
    ensures (exists i :: 0 <= i < |planned| && !ShardLabelAgrees(planned[i].blocks)) <==>
        MixesLabels(cfg, blocks, ranges, highest, now)
  {
    if i :| 0 <= i < |planned| && !ShardLabelAgrees(planned[i].blocks) {
      var job := planned[i];
      assert job in planned;
      AgreesIffNotMixed(job.blocks);
      assert RipeInGroup(cfg, blocks, FirstKey(job), job.id, highest, now);
    }
    if MixesLabels(cfg, blocks, ranges, highest, now) {
      var key, id :| InPlan(cfg, blocks, ranges, key, id) && RipeInGroup(cfg, blocks, key, id, highest, now) &&
                     Mixed(Selected(cfg, id, MainGroup(blocks, key)));
      assert HasPlannedJob(planned, key, id);
      var i :| 0 <= i < |planned| && planned[i].id == id && planned[i].blocks != [] &&
        KeyOf(planned[i].blocks[0]) == key;
      assert planned[i] in planned;
      AgreesIffNotMixed(planned[i].blocks);
    }
  }

  /** Non-empty shard labels exclude it. */
  lemma NonEmptyLabelsDoNotMix(cfg: Config, blocks: set<Meta>, ranges: seq<int>, highest: int, now: int)
    requires forall m :: m in blocks ==> NoEmptyShardLabel(m)
    ensures !MixesLabels(cfg, blocks, ranges, highest, now)
  {
    forall key, id | InPlan(cfg, blocks, ranges, key, id) ensures !Mixed(Selected(cfg, id, MainGroup(blocks, key))) {
      forall m | m in Selected(cfg, id, MainGroup(blocks, key))
        ensures SHARD_ID_LABEL in m.labels <==> id.stage.Merge? && id.shardID != ""
      {
        assert NoEmptyShardLabel(m) && Selects(cfg, id, m);
      }
    }
  }

  /** Without splitting, one block with an empty shard label and one without the label are enough for it. */
  lemma EmptyLabelMixes(cfg: Config, ranges: seq<int>, highest: int, now: int) returns (blocks: map<ULID, Meta>)
    requires |ranges| > 0 && PositiveRanges(ranges) && cfg.shards % UINT32 == 0
    ensures |blocks| == 2 && forall id :: id in blocks ==> blocks[id].ulid == id
    ensures MixesLabels(cfg, ValueSet(blocks), ranges, highest, now)
  {
    var a, b := Meta(1, 0, ranges[0], 1, [1], 1, 0, map[SHARD_ID_LABEL := ""]),
      Meta(2, 0, ranges[0], 1, [2], 1, 0, map[]);
    blocks := map[1 := a, 2 := b];
    var set2 := {a, b};
    assert ValueSet(blocks) == set2 by { assert blocks[1] == a && blocks[2] == b; }
    var key, id := KeyOf(a), JobID(Merge, "", 0, ranges[0]);
    assert key == KeyOf(b) && MainGroup(set2, key) == set2;
    assert Aligned(0, ranges[0]) by { assert 0 == Times(0, ranges[0]); }
    assert Selected(cfg, id, set2) == set2;
    AtLeastTwo(set2, a, b);
    assert Planned(cfg, set2, ranges, false, 1, id);
    PlannedStays(cfg, set2, ranges, false, 1, |ranges|, id);
    assert ShardCountOf(cfg, key) == 0;
    assert InPlan(cfg, set2, ranges, key, id) && RipeInGroup(cfg, set2, key, id, highest, now);
  }

  /** A split job is planned only where splitting is enabled. */
  lemma SplitHasShards(cfg: Config, blocks: set<Meta>, ranges: seq<int>, job: Job)
    requires IsPlannedJob(cfg, blocks, ranges, job) && job.id.stage.Split?
    ensures EffectiveShardCount(cfg, job.blocks) > 0
  {
    var key := KeyOf(job.blocks[0]);
    var k := PlannedIsCandidate(cfg, MainGroup(blocks, key), ranges, ShardCountOf(cfg, key) > 0, |ranges|, job.id);
    forall m | m in job.blocks ensures KeyOf(m) == key { assert m in Elements(job.blocks); }
    ShardCountIsOfKey(cfg, job.blocks, key);
  }

  /** What a compaction job holds. */
  datatype Snapshot = Snapshot(userID: string, key: string, labels: map<string, string>, resolution: int,
                               useSplitting: bool, splitNumShards: nat, shardingKey: string, metas: seq<Meta>)

  function Snap(c: CompactionJob): Snapshot
    reads c
  {
    Snapshot(c.userID, c.key, c.labels, c.resolution, c.useSplitting, c.splitNumShards, c.shardingKey, c.metasByMinTime)
  }

  function Snaps(jobs: seq<CompactionJob>): seq<Snapshot>
    reads jobs
  {
    seq(|jobs|, i requires 0 <= i < |jobs| reads jobs => Snap(jobs[i]))
  }

  /** The compaction job for a planned job: its blocks, sorted, the labels and resolution of the first, and
      a positive shard count if it is a split job. */
  ghost predicate Runs(s: Snapshot, cfg: Config, h: map<string, string> -> nat, job: Job) {
    s.userID == cfg.userID && s.key == GroupKey(h, FirstKey(job), job.id) && job.blocks != [] &&
    s.labels == job.blocks[0].labels && s.resolution == job.blocks[0].resolution &&
    s.useSplitting == job.id.stage.Split? && s.splitNumShards == EffectiveShardCount(cfg, job.blocks) &&
    s.shardingKey == ShardingKey(job) && (s.useSplitting ==> s.splitNumShards > 0) &&
    multiset(s.metas) == multiset(job.blocks) && SortedBy(s.metas, StartsNoLater)
  }

  /** The turn of the loop for one planned job. Fails exactly when its blocks mix an empty shard label
      with an absent one; the error of a split job without shards is out of reach. */
  method MakeJob(cfg: Config, h: map<string, string> -> nat, job: Job, ghost blocks: set<Meta>, ghost ranges: seq<int>)
    returns (c: CompactionJob, ok: bool)
    requires IsPlannedJob(cfg, blocks, ranges, job)
    ensures ok <==> ShardLabelAgrees(job.blocks)
    ensures fresh(c) && (ok ==> Runs(Snap(c), cfg, h, job))
  {
    var shardCount := EffectiveShardCount(cfg, job.blocks);
    if shardCount <= 0 && job.id.stage.Split? {
      SplitHasShards(cfg, blocks, ranges, job);
      assert false; // "unexpected split stage job because splitting is disabled"
    }
    c := new CompactionJob(cfg.userID, GroupKey(h, FirstKey(job), job.id), job.blocks[0].labels,
                           job.blocks[0].resolution, job.id.stage.Split?, shardCount, ShardingKey(job));
    forall m | m in job.blocks
      ensures m.labels == c.labels && m.resolution == c.resolution <==>
          (SHARD_ID_LABEL in m.labels <==> SHARD_ID_LABEL in job.blocks[0].labels)
    {
      LabelsAgreeIff(cfg, blocks, ranges, job, m);
    }
    ok := AppendAll(c, job.blocks);
  }

  /** The loop over AppendMeta. */
  method AppendAll(c: CompactionJob, blocks: seq<Meta>) returns (ok: bool)
    requires c.metasByMinTime == []
    modifies c
    ensures ok <==> forall m :: m in blocks ==> m.labels == c.labels && m.resolution == c.resolution
    ensures ok ==> multiset(c.metasByMinTime) == multiset(blocks) && SortedBy(c.metasByMinTime, StartsNoLater)
  {
    for i := 0 to |blocks|
      invariant SortedBy(c.metasByMinTime, StartsNoLater) && multiset(c.metasByMinTime) == multiset(blocks[..i])
      invariant forall k :: 0 <= k < i ==> blocks[k].labels == c.labels && blocks[k].resolution == c.resolution
    {
      var accepted := c.AppendMeta(blocks[i]);
      if !accepted {
        return false;
      }
      assert blocks[..i + 1] == blocks[..i] + [blocks[i]];
    }
    assert blocks[..|blocks|] == blocks;
    return true;
  }

  function ValueSet(blocks: map<ULID, Meta>): set<Meta> {
    set id | id in blocks :: blocks[id]
  }

  method Flatten(blocks: map<ULID, Meta>) returns (flat: seq<Meta>)
    requires forall id :: id in blocks ==> blocks[id].ulid == id
    ensures NoRepeats(flat) && Elements(flat) == ValueSet(blocks)
  {
    var ids := KeysInSomeOrder(blocks);
    flat := [];
    for i := 0 to |ids|
      invariant |flat| == i && forall k :: 0 <= k < i ==> flat[k] == blocks[ids[k]]
    {
      flat := flat + [blocks[ids[i]]];
    }
    forall m ensures m in Elements(flat) <==> m in ValueSet(blocks) {
      if m in ValueSet(blocks) {
        var id :| id in blocks && blocks[id] == m;
        var k :| 0 <= k < |ids| && ids[k] == id;
        assert flat[k] == m;
      }
    }
  }

  /** SplitAndMergeGrouper.Groups. It fails exactly when some ripe job mixes an empty shard label with an
      absent one, so never when no shard label is empty; otherwise it gives one compaction job per planned job. */
  method Groups(cfg: Config, blocks: map<ULID, Meta>, ranges: seq<int>, now: int, h: map<string, string> -> nat)
    returns (jobs: Option<seq<CompactionJob>>, ghost planned: seq<Job>, ghost highest: int)
    requires PositiveRanges(ranges) && forall id :: id in blocks ==> blocks[id].ulid == id
    ensures IsRipePlan(cfg, ValueSet(blocks), ranges, highest, now, planned) && IsHighest(ValueSet(blocks), highest)
    ensures jobs.None? <==> MixesLabels(cfg, ValueSet(blocks), ranges, highest, now)
    ensures (forall id :: id in blocks ==> NoEmptyShardLabel(blocks[id])) ==> jobs.Some?
    ensures jobs.Some? ==> |jobs.value| == |planned| && forall i :: 0 <= i < |planned| ==>
        Runs(Snap(jobs.value[i]), cfg, h, planned[i])
  {
    var flat := Flatten(blocks);
    var plan;
    plan, highest := PlanCompaction(cfg, flat, ranges, now, h);
    planned := plan;
    ghost var tests := Tests(j => IsPlannedJob(cfg, ValueSet(blocks), ranges, j),
                             (j: Job) => ShardLabelAgrees(j.blocks), (c, j) => Runs(c, cfg, h, j));
    forall i | 0 <= i < |plan| ensures tests.planned(plan[i]) {
      assert IsRipeJob(cfg, ValueSet(blocks), ranges, highest, now, plan[i]);
    }
    jobs := MakeJobs(cfg, h, plan, ValueSet(blocks), ranges, tests);
    MixedJobIff(cfg, ValueSet(blocks), ranges, highest, now, plan);
    if forall id :: id in blocks ==> NoEmptyShardLabel(blocks[id]) {
      NonEmptyLabelsDoNotMix(cfg, ValueSet(blocks), ranges, highest, now);
    }
    if jobs.Some? {
      forall i | 0 <= i < |plan| ensures Runs(Snap(jobs.value[i]), cfg, h, plan[i]) {
        assert tests.fits(Snap(jobs.value[i]), plan[i]);
      }
    }
  }

  /** Tests on jobs, as values. */
  datatype Tests = Tests(planned: Job -> bool, agrees: Job -> bool, fits: (Snapshot, Job) -> bool)

  ghost predicate Decide(tests: Tests, cfg: Config, h: map<string, string> -> nat, blocks: set<Meta>,
                         ranges: seq<int>) {
    (forall j {:trigger IsPlannedJob(cfg, blocks, ranges, j)} :: tests.planned(j) <==>
      IsPlannedJob(cfg, blocks, ranges, j)) &&
    (forall j {:trigger ShardLabelAgrees(j.blocks)} :: tests.agrees(j) <==> ShardLabelAgrees(j.blocks)) &&
    (forall c, j {:trigger Runs(c, cfg, h, j)} :: tests.fits(c, j) <==> Runs(c, cfg, h, j))
  }

  /** The loop over the planned jobs. */
  method MakeJobs(cfg: Config, h: map<string, string> -> nat, plan: seq<Job>, ghost blocks: set<Meta>,
                  ghost ranges: seq<int>, ghost tests: Tests)
    returns (jobs: Option<seq<CompactionJob>>)
    requires Decide(tests, cfg, h, blocks, ranges) && forall i :: 0 <= i < |plan| ==> tests.planned(plan[i])
    ensures jobs.None? <==> exists i :: 0 <= i < |plan| && !tests.agrees(plan[i])
    ensures jobs.Some? ==> |jobs.value| == |plan| && forall i :: 0 <= i < |plan| ==>
        tests.fits(Snap(jobs.value[i]), plan[i])
  {
    var res: seq<CompactionJob> := [];
    for i := 0 to |plan|
      invariant |res| == i && forall k :: 0 <= k < i ==> tests.agrees(plan[k]) && tests.fits(Snap(res[k]), plan[k])
    {
      var c, ok := MakeTested(cfg, h, plan[i], blocks, ranges, tests);
      if !ok {
        return None;
      }
      res := res + [c];
    }
    jobs := Some(res);
  }

  method MakeTested(cfg: Config, h: map<string, string> -> nat, job: Job, ghost blocks: set<Meta>,
                    ghost ranges: seq<int>, ghost tests: Tests)
    returns (c: CompactionJob, ok: bool)
    requires Decide(tests, cfg, h, blocks, ranges) && tests.planned(job)
    ensures (ok <==> tests.agrees(job)) && (ok ==> tests.fits(Snap(c), job))
  {
    assert IsPlannedJob(cfg, blocks, ranges, job);
    c, ok := MakeJob(cfg, h, job, blocks, ranges);
    assert ok ==> Runs(Snap(c), cfg, h, job);
    assert ok <==> ShardLabelAgrees(job.blocks);
  }
}
