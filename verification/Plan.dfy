/** The finished plan: recency filter, order, and what a plan guarantees. */
module Plan {
  import opened Sharding
  import opened Block
  import opened Sorting
  import opened Sequences
  import opened PlanSpec
  import opened Grouper
  import opened Planner
  import opened Text

  const MIN_INT64: int := -0x8000_0000_0000_0000

  // ---------- jobs that would compact recent blocks prematurely ----------

  ghost predicate MaxLevelIsOne(blocks: set<Meta>) {
    (exists m :: m in blocks && m.level == 1) && forall m :: m in blocks ==> m.level <= 1
  }

  ghost predicate EndsLast(blocks: set<Meta>, a: Meta) {
    a in blocks && forall m :: m in blocks ==> m.maxTime <= a.maxTime
  }

  ghost predicate StartsFirst(blocks: set<Meta>, a: Meta) {
    a in blocks && forall m :: m in blocks ==> a.minTime <= m.minTime
  }

  /** From the first start to the last end the blocks span this length. */
  ghost predicate Spans(blocks: set<Meta>, length: int) {
    exists a, b :: EndsLast(blocks, a) && StartsFirst(blocks, b) && a.maxTime - b.minTime == length
  }

  /** The job may remain: it ends by the most recent block's end, or one range length ago, or has only
      level 1 blocks, or fills its range. */
  ghost predicate Ripe(id: JobID, blocks: set<Meta>, highest: int, now: int) {
    var length := id.rangeEnd - id.rangeStart;
    id.rangeEnd <= highest || id.rangeEnd + length <= now || MaxLevelIsOne(blocks) || Spans(blocks, length)
  }

  ghost function RipeJob(highest: int, now: int): Job -> bool {
    (j: Job) => Ripe(j.id, Elements(j.blocks), highest, now)
  }

  /** getMaxTime: the highest end among the blocks. */
  method GetMaxTime(blocks: seq<Meta>) returns (t: int)
    ensures t >= MIN_INT64 && forall m :: m in blocks ==> m.maxTime <= t
    ensures t == MIN_INT64 || exists m :: m in blocks && m.maxTime == t
  {
    t := MIN_INT64;
    for i := 0 to |blocks|
      invariant t >= MIN_INT64 && forall k :: 0 <= k < i ==> blocks[k].maxTime <= t
      invariant t == MIN_INT64 || exists k :: 0 <= k < i && blocks[k].maxTime == t
    {
      if blocks[i].maxTime > t {
        t := blocks[i].maxTime;
      }
    }
  }

  /** blocksGroup.maxTime: a block of the group that ends last. */
  method LastToEnd(blocks: seq<Meta>) returns (m: Meta)
    requires blocks != []
    ensures EndsLast(Elements(blocks), m)
  {
    m := blocks[0];
    for i := 1 to |blocks|
      invariant m in blocks && forall k :: 0 <= k < i ==> blocks[k].maxTime <= m.maxTime
    {
      if blocks[i].maxTime > m.maxTime {
        m := blocks[i];
      }
    }
  }

  /** blocksGroup.maxCompactionLevel. */
  method MaxCompactionLevel(blocks: seq<Meta>) returns (level: int)
    requires blocks != []
    ensures (exists m :: m in blocks && m.level == level) && forall m :: m in blocks ==> m.level <= level
  {
    level := blocks[0].level;
    for i := 1 to |blocks|
      invariant (exists k :: 0 <= k < i && blocks[k].level == level) && forall k :: 0 <= k < i ==>
          blocks[k].level <= level
    {
      if blocks[i].level > level {
        level := blocks[i].level;
      }
    }
  }

  /** The four tests. The first block starts first because blocks stay sorted through grouping. */
  method IsRipe(job: Job, highest: int, now: int) returns (ripe: bool)
    requires job.blocks != [] && SortedBy(job.blocks, StartsNoLater)
    ensures ripe <==> RipeJob(highest, now)(job)
  {
    ghost var all := Elements(job.blocks);
    var length := job.id.rangeEnd - job.id.rangeStart;
    if job.id.rangeEnd <= highest || job.id.rangeEnd + length <= now {
      return true;
    }
    var level := MaxCompactionLevel(job.blocks);
    ghost var top :| top in job.blocks && top.level == level;
    assert top in all && (level == 1 <==> MaxLevelIsOne(all));
    if level == 1 {
      return true;
    }
    var last := LastToEnd(job.blocks);
    assert StartsFirst(all, job.blocks[0]);
    assert last.maxTime - job.blocks[0].minTime == length <==> Spans(all, length);
    return last.maxTime - job.blocks[0].minTime == length;
  }

  /** The loop that removes jobs in place. */
  method DropPremature(planned: seq<Job>, highest: int, now: int) returns (jobs: seq<Job>)
    requires forall j :: j in planned ==> j.blocks != [] && SortedBy(j.blocks, StartsNoLater)
    ensures jobs == Keep(planned, RipeJob(highest, now))
  {
    jobs := planned;
    var idx := 0;
    ghost var k := 0;
    while idx < |jobs|
      invariant 0 <= k <= |planned| && Filtering(planned, k, RipeJob(highest, now), jobs, idx)
      decreases |planned| - k
    {
      FilteringStep(planned, k, RipeJob(highest, now), jobs, idx);
      var ripe := IsRipe(jobs[idx], highest, now);
      if ripe {
        idx := idx + 1;
      } else {
        jobs := jobs[..idx] + jobs[idx + 1..];
      }
      k := k + 1;
    }
    FilteringDone(planned, k, RipeJob(highest, now), jobs, idx);
  }

  /** The first k elements are filtered, idx of them kept; the rest is untouched. */
  ghost predicate Filtering<T>(s: seq<T>, k: nat, p: T -> bool, now: seq<T>, idx: nat) {
    k <= |s| && idx == |Keep(s[..k], p)| && now == Keep(s[..k], p) + s[k..]
  }

  lemma FilteringStep<T>(s: seq<T>, k: nat, p: T -> bool, now: seq<T>, idx: nat)
    requires Filtering(s, k, p, now, idx) && idx < |now|
    ensures k < |s| && now[idx] == s[k]
    ensures p(s[k]) ==> Filtering(s, k + 1, p, now, idx + 1)
    ensures !p(s[k]) ==> Filtering(s, k + 1, p, now[..idx] + now[idx + 1..], idx)
  {
    KeepAppend(s[..k], s[k], p);
    assert s[..k + 1] == s[..k] + [s[k]] && s[k..] == [s[k]] + s[k + 1..];
  }

  lemma FilteringDone<T>(s: seq<T>, k: nat, p: T -> bool, now: seq<T>, idx: nat)
    requires Filtering(s, k, p, now, idx) && idx >= |now|
    ensures now == Keep(s, p)
  {
    assert s[..k] == s;
  }

  // ---------- the plan ----------

  /** jobs are exactly the planned jobs that are ripe, once each. */
  ghost predicate IsRipePlan(cfg: Config, blocks: set<Meta>, ranges: seq<int>, highest: int, now: int, jobs: seq<Job>) {
    IsRipePart(cfg, blocks, ranges, highest, now, jobs) &&
    forall key, id :: InPlan(cfg, blocks, ranges, key, id) && RipeInGroup(cfg, blocks, key, id, highest, now) ==>
      HasPlannedJob(jobs, key, id)
  }

  /** jobs are planned jobs that are ripe, each at most once. */
  ghost predicate IsRipePart(cfg: Config, blocks: set<Meta>, ranges: seq<int>, highest: int, now: int, jobs: seq<Job>) {
    (forall j :: j in jobs ==> IsRipeJob(cfg, blocks, ranges, highest, now, j)) && DistinctJobs(jobs)
  }

  ghost predicate IsRipeJob(cfg: Config, blocks: set<Meta>, ranges: seq<int>, highest: int, now: int, job: Job) {
    IsPlannedJob(cfg, blocks, ranges, job) && Ripe(job.id, Elements(job.blocks), highest, now)
  }

  /** No job that is ripe could be planned for the blocks. */
  ghost predicate NothingRipe(cfg: Config, blocks: set<Meta>, ranges: seq<int>, now: int) {
    exists highest :: IsHighest(blocks, highest) && forall key, id :: InPlan(cfg, blocks, ranges, key, id) ==>
      !RipeInGroup(cfg, blocks, key, id, highest, now)
  }

  ghost predicate RipeInGroup(cfg: Config, blocks: set<Meta>, key: Key, id: JobID, highest: int, now: int) {
    Ripe(id, Selected(cfg, id, MainGroup(blocks, key)), highest, now)
  }

  ghost predicate IsHighest(blocks: set<Meta>, t: int) {
    t >= MIN_INT64 && (forall m :: m in blocks ==> m.maxTime <= t) &&
    (t == MIN_INT64 || exists m :: m in blocks && m.maxTime == t)
  }

  lemma RipePart(cfg: Config, blocks: set<Meta>, ranges: seq<int>, highest: int, now: int, planned: seq<Job>)
    requires IsPlan(cfg, blocks, ranges, planned)
    ensures IsRipePlan(cfg, blocks, ranges, highest, now, Keep(planned, RipeJob(highest, now)))
  {
    var p := RipeJob(highest, now);
    var jobs := Keep(planned, p);
    forall j | j in jobs ensures IsPlannedJob(cfg, blocks, ranges, j) && Ripe(j.id, Elements(j.blocks), highest, now) {
      KeepMember(planned, p, j);
    }
    forall key, id | InPlan(cfg, blocks, ranges, key, id) && RipeInGroup(cfg, blocks, key, id, highest, now)
      ensures HasPlannedJob(jobs, key, id)
    {
      RipeJobIsKept(cfg, blocks, ranges, highest, now, planned, key, id);
    }
    KeepDistinctJobs(planned, p);
  }

  lemma RipeJobIsKept(cfg: Config, blocks: set<Meta>, ranges: seq<int>, highest: int, now: int, planned: seq<Job>,
                      key: Key, id: JobID)
    requires IsPlan(cfg, blocks, ranges, planned) && InPlan(cfg, blocks, ranges, key, id)
    requires RipeInGroup(cfg, blocks, key, id, highest, now)
    ensures HasPlannedJob(Keep(planned, RipeJob(highest, now)), key, id)
  {
    assert HasPlannedJob(planned, key, id);
    var i :| 0 <= i < |planned| && planned[i].id == id && planned[i].blocks != [] && KeyOf(planned[i].blocks[0]) == key;
    var job := planned[i];
    assert IsPlannedJob(cfg, blocks, ranges, job);
    assert Elements(job.blocks) == Selected(cfg, id, MainGroup(blocks, key));
    KeepMember(planned, RipeJob(highest, now), job);
    var jobs := Keep(planned, RipeJob(highest, now));
    var k :| 0 <= k < |jobs| && jobs[k] == job;
  }

  lemma {:induction false} KeepDistinctJobs(jobs: seq<Job>, p: Job -> bool)
    requires DistinctJobs(jobs)
    ensures DistinctJobs(Keep(jobs, p))
  {
    if jobs != [] {
      var init := jobs[..|jobs| - 1];
      KeepDistinctJobs(init, p);
      forall i | 0 <= i < |Keep(init, p)| ensures Keep(init, p)[i] in init { KeepMember(init, p, Keep(init, p)[i]); }
    }
  }

  lemma DistinctJobsDoNotRepeat(jobs: seq<Job>)
    requires DistinctJobs(jobs) && forall j :: j in jobs ==> j.blocks != []
    ensures NoRepeats(jobs)
  {
    forall i, j | 0 <= i < j < |jobs| ensures jobs[i] != jobs[j] { assert jobs[i] in jobs && jobs[j] in jobs; }
  }

  /** A plan in another order is a plan. */
  lemma ReorderedPlan(cfg: Config, blocks: set<Meta>, ranges: seq<int>, highest: int, now: int, a: seq<Job>,
                      b: seq<Job>)
    requires IsRipePlan(cfg, blocks, ranges, highest, now, a) && multiset(a) == multiset(b)
    ensures IsRipePlan(cfg, blocks, ranges, highest, now, b)
  {
    DistinctJobsDoNotRepeat(a);
    PermutationKeepsDistinct(a, b);
    forall key, id | HasPlannedJob(a, key, id) ensures HasPlannedJob(b, key, id) {
      var i :| 0 <= i < |a| && a[i].id == id && a[i].blocks != [] && KeyOf(a[i].blocks[0]) == key;
      assert a[i] in b;
    }
    forall i, j | 0 <= i < j < |b| && b[i].blocks != [] && b[j].blocks != []
      ensures b[i].id != b[j].id || KeyOf(b[i].blocks[0]) != KeyOf(b[j].blocks[0])
    {
      assert b[i] in a && b[j] in a && b[i] != b[j];
      var k :| 0 <= k < |a| && a[k] == b[i];
      var l :| 0 <= l < |a| && a[l] == b[j];
    }
  }

  function StageText(stage: Stage): string {
    match stage case Split => "split" case Merge => "merge"
  }

  /** job.shardingKey. */
  function ShardingKey(job: Job): string {
    job.userID + "-" + StageText(job.id.stage) + "-" + IntText(job.id.rangeStart) + "-" + IntText(job.id.rangeEnd) +
    "-" + job.id.shardID
  }

  /** defaultGroupKeyWithoutShardID: labelHash stands for labels.StableHash. */
  function GroupText(labelHash: map<string, string> -> nat, key: Key): string {
    IntText(key.resolution) + "@" + Decimal(labelHash(key.labels))
  }

  function FirstKey(job: Job): Key {
    if job.blocks == [] then Key(0, map[]) else KeyOf(job.blocks[0])
  }

  predicate KeyOrder(labelHash: map<string, string> -> nat, a: Job, b: Job) {
    if ShardingKey(a) != ShardingKey(b) then LexLe(ShardingKey(a), ShardingKey(b))
    else LexLe(GroupText(labelHash, FirstKey(a)), GroupText(labelHash, FirstKey(b)))
  }

  function ByKey(labelHash: map<string, string> -> nat): (Job, Job) -> bool {
    (a, b) => KeyOrder(labelHash, a, b)
  }

  lemma KeyOrderIsTotal(labelHash: map<string, string> -> nat)
    ensures TotalPreorder(ByKey(labelHash))
  {
    var le := ByKey(labelHash);
    forall a, b ensures le(a, b) || le(b, a) {
      LexTotal(ShardingKey(a), ShardingKey(b));
      LexTotal(GroupText(labelHash, FirstKey(a)), GroupText(labelHash, FirstKey(b)));
    }
    forall a, b, c | le(a, b) && le(b, c) ensures le(a, c) {
      TwoLevelTransitive(ShardingKey(a), ShardingKey(b), ShardingKey(c),
                         GroupText(labelHash, FirstKey(a)), GroupText(labelHash, FirstKey(b)),
                         GroupText(labelHash, FirstKey(c)));
    }
  }

  lemma TwoLevelTransitive(a: string, b: string, c: string, x: string, y: string, z: string)
    requires if a != b then LexLe(a, b) else LexLe(x, y)
    requires if b != c then LexLe(b, c) else LexLe(y, z)
    ensures if a != c then LexLe(a, c) else LexLe(x, z)
  {
    if a != b && b != c {
      if a == c { LexAntisymmetric(a, b); } else { LexTransitive(a, b, c); }
    } else if a == b && b == c {
      LexTransitive(x, y, z);
    }
  }

  /** planCompaction. */
  method PlanCompaction(cfg: Config, blocks: seq<Meta>, ranges: seq<int>, now: int,
                        labelHash: map<string, string> -> nat)
    returns (jobs: seq<Job>, ghost highest: int)
    requires PositiveRanges(ranges) && NoRepeats(blocks)
    ensures IsRipePlan(cfg, Elements(blocks), ranges, highest, now, jobs) && IsHighest(Elements(blocks), highest)
    ensures SortedBy(jobs, ByKey(labelHash))
  {
    highest := GetMaxTime(blocks);
    if |blocks| == 0 || |ranges| == 0 {
      NothingToPlan(cfg, Elements(blocks), ranges);
      return [], highest;
    }
    var planned := PlanAllGroups(cfg, blocks, ranges);
    var highestMaxTime := GetMaxTime(blocks);
    highest := highestMaxTime;
    jobs := DropPremature(planned, highestMaxTime, now);
    RipePart(cfg, Elements(blocks), ranges, highest, now, planned);
    KeyOrderIsTotal(labelHash);
    ghost var unsorted := jobs;
    jobs := SortBy(jobs, ByKey(labelHash));
    ReorderedPlan(cfg, Elements(blocks), ranges, highest, now, unsorted, jobs);
  }

  lemma NothingToPlan(cfg: Config, blocks: set<Meta>, ranges: seq<int>)
    requires blocks == {} || ranges == []
    ensures forall key, id :: !InPlan(cfg, blocks, ranges, key, id)
  {
    forall key, id ensures !InPlan(cfg, blocks, ranges, key, id) {
      if InPlan(cfg, blocks, ranges, key, id) {
        var m := PlannedKeyHasBlocks(cfg, blocks, ranges, key, id);
      }
    }
  }
}
