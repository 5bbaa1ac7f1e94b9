/** planCompaction: the jobs of all main groups, without conflicts. */
module Planner {
  import opened Block
  import opened Sorting
  import opened Sequences
  import opened PlanSpec
  import opened Grouper

  /** The main group of a block: its resolution and its labels without the shard ID. The program uses
      the resolution and a 64-bit hash of the labels; the hash is taken to tell labels apart. */
  datatype Key = Key(resolution: int, labels: map<string, string>)

  function KeyOf(m: Meta): Key {
    Key(m.resolution, m.labels - {SHARD_ID_LABEL})
  }

  function MainKey(): Meta -> Key {
    (m: Meta) => KeyOf(m)
  }

  ghost predicate OfKey(blocks: seq<Meta>, key: Key) {
    forall m :: m in blocks ==> KeyOf(m) == key
  }

  /** Whether two jobs cannot be planned at the same time. */
  predicate Conflicts(j: Job, other: Job) {
    j.userID == other.userID && Overlap(j.id, other.id) &&
    (|j.blocks| > 0 && |other.blocks| > 0 ==> KeyOf(j.blocks[0]) == KeyOf(other.blocks[0])) &&
    (j.id.stage != other.id.stage || j.id.shardID == other.id.shardID)
  }

  predicate IsOOO(labels: map<string, string>) {
    OUT_OF_ORDER_LABEL in labels && labels[OUT_OF_ORDER_LABEL] == OUT_OF_ORDER_VALUE
  }

  /** effectiveShardCount. */
  function EffectiveShardCount(cfg: Config, blocks: seq<Meta>): nat {
    if |blocks| > 0 && IsOOO(blocks[0].labels) && cfg.oooShards > 0 then cfg.oooShards % UINT32
    else cfg.shards % UINT32
  }

  /** The shard count of a main group: all its blocks agree on being out of order. */
  function ShardCountOf(cfg: Config, key: Key): nat {
    if IsOOO(key.labels) && cfg.oooShards > 0 then cfg.oooShards % UINT32 else cfg.shards % UINT32
  }

  lemma ShardCountIsOfKey(cfg: Config, blocks: seq<Meta>, key: Key)
    requires OfKey(blocks, key) && blocks != []
    ensures EffectiveShardCount(cfg, blocks) == ShardCountOf(cfg, key)
  {
    assert KeyOf(blocks[0]) == key;
    assert SHARD_ID_LABEL[2] != OUT_OF_ORDER_LABEL[2];
    assert IsOOO(blocks[0].labels) == IsOOO(key.labels);
  }

  // ---------- one main group ----------

  ghost function PlannedWant(cfg: Config, blocks: set<Meta>, ranges: seq<int>, enabled: bool, n: nat): JobID -> bool
    requires n <= |ranges|
  {
    id => Planned(cfg, blocks, ranges, enabled, n, id)
  }

  /** Planned with the first n ranges, or a candidate of the next one that was looked at and is clear. */
  ghost function PartlyWant(cfg: Config, blocks: set<Meta>, ranges: seq<int>, enabled: bool, n: nat,
                            seen: seq<Job>): JobID -> bool
    requires n <= |ranges|
  {
    id => Planned(cfg, blocks, ranges, enabled, n, id) ||
    (ClearOf(cfg, blocks, ranges, enabled, n, id) && HasJob(seen, id))
  }

  /** Jobs of other main groups. */
  ghost predicate OtherKeys(jobs: seq<Job>, key: Key) {
    forall j :: j in jobs ==> j.blocks != [] && KeyOf(j.blocks[0]) != key
  }

  method HasConflict(job: Job, jobs: seq<Job>) returns (found: bool)
    ensures found <==> exists i :: 0 <= i < |jobs| && Conflicts(job, jobs[i])
  {
    for i := 0 to |jobs|
      invariant forall k :: 0 <= k < i ==> !Conflicts(job, jobs[k])
    {
      if Conflicts(job, jobs[i]) {
        return true;
      }
    }
    return false;
  }

  lemma JobHasBlocks(cfg: Config, blocks: seq<Meta>, ranges: seq<int>, enabled: bool, n: nat, key: Key, job: Job)
    requires n <= |ranges| && NoRepeats(blocks) && OfKey(blocks, key) && IsJob(cfg, blocks, job)
    requires n < |ranges| && Candidate(cfg, Elements(blocks), ranges[n], SplittingAt(ranges, n, enabled), job.id)
    ensures job.blocks != [] && KeyOf(job.blocks[0]) == key
  {
    SelectedAreKept(cfg, blocks, job.id);
    KeepMember(blocks, Chosen(cfg, job.id), job.blocks[0]);
  }

  lemma PlannedJobHasBlocks(cfg: Config, blocks: seq<Meta>, ranges: seq<int>, enabled: bool, n: nat, key: Key, job: Job)
    requires n <= |ranges| && NoRepeats(blocks) && OfKey(blocks, key) && IsJob(cfg, blocks, job)
    requires Planned(cfg, Elements(blocks), ranges, enabled, n, job.id)
    ensures job.blocks != [] && KeyOf(job.blocks[0]) == key
  {
    var k := PlannedIsCandidate(cfg, Elements(blocks), ranges, enabled, n, job.id);
    JobHasBlocks(cfg, blocks, ranges, enabled, k, key, job);
  }

  /** A candidate conflicts with a job already in the list exactly when it is not clear of what was
      planned for smaller ranges: neither other main groups nor the same range matter. */
  lemma ConflictIffNotClear(cfg: Config, blocks: seq<Meta>, key: Key, ranges: seq<int>, enabled: bool, n: nat,
                            before: seq<Job>, mine: seq<Job>, cands: seq<Job>, i: nat)
    requires n < |ranges| && PositiveRanges(ranges) && NoRepeats(blocks) && OfKey(blocks, key) && OtherKeys(before, key)
    requires JobList(cfg, blocks, cands, Want(cfg, Elements(blocks), ranges[n], SplittingAt(ranges, n, enabled))) &&
        i < |cands|
    requires JobList(cfg, blocks, mine, PartlyWant(cfg, Elements(blocks), ranges, enabled, n, cands[..i]))
    ensures (exists k :: 0 <= k < |before + mine| && Conflicts(cands[i], (before + mine)[k])) <==>
            !ClearOf(cfg, Elements(blocks), ranges, enabled, n, cands[i].id)
  {
    var all, job, jobs := Elements(blocks), cands[i], before + mine;
    JobHasBlocks(cfg, blocks, ranges, enabled, n, key, job);
    forall k | 0 <= k < |jobs| && Conflicts(job, jobs[k]) ensures !ClearOf(cfg, all, ranges, enabled, n, job.id) {
      assert jobs[k] == if k < |before| then before[k] else mine[k - |before|];
      if k >= |before| {
        var other := mine[k - |before|];
        assert jobs[k] == other && Clash(job.id, other.id);
        if !Planned(cfg, all, ranges, enabled, n, other.id) {
          var l :| 0 <= l < i && cands[..i][l].id == other.id;
          assert cands[l].id == other.id;
          CandidatesDoNotClash(cfg, all, ranges[n], SplittingAt(ranges, n, enabled), job.id, other.id);
        }
      }
    }
    if !ClearOf(cfg, all, ranges, enabled, n, job.id) {
      var id :| Planned(cfg, all, ranges, enabled, n, id) && Clash(job.id, id);
      assert HasJob(mine, id);
      var k :| 0 <= k < |mine| && mine[k].id == id;
      PlannedJobHasBlocks(cfg, blocks, ranges, enabled, n, key, mine[k]);
      assert jobs[|before| + k] == mine[k];
    }
  }

  lemma Accept(cfg: Config, blocks: seq<Meta>, ranges: seq<int>, enabled: bool, n: nat, mine: seq<Job>, cands: seq<Job>,
               i: nat)
    requires n < |ranges| && PositiveRanges(ranges)
    requires JobList(cfg, blocks, cands, Want(cfg, Elements(blocks), ranges[n], SplittingAt(ranges, n, enabled))) &&
        i < |cands|
    requires JobList(cfg, blocks, mine, PartlyWant(cfg, Elements(blocks), ranges, enabled, n, cands[..i]))
    ensures JobList(cfg, blocks,
                    if ClearOf(cfg, Elements(blocks), ranges, enabled, n, cands[i].id) then mine + [cands[i]] else mine,
                    PartlyWant(cfg, Elements(blocks), ranges, enabled, n, cands[..i + 1]))
  {
    var all, job := Elements(blocks), cands[i];
    var clear := ClearOf(cfg, all, ranges, enabled, n, job.id);
    var wa, both := PartlyWant(cfg, all, ranges, enabled, n, cands[..i]),
      PartlyWant(cfg, all, ranges, enabled, n, cands[..i + 1]);
    forall id ensures HasJob(cands[..i + 1], id) <==> HasJob(cands[..i], id) || id == job.id {
      OneMoreJob(cands, i, id);
    }
    if clear {
      assert Clash(job.id, job.id);
      assert !HasJob(cands[..i], job.id);
      var only := (id: JobID) => id == job.id;
      assert [job][0].id == job.id;
      assert JobList(cfg, blocks, [job], only);
      JobListAppend(cfg, blocks, mine, wa, [job], only, both);
    } else {
      JobListSame(cfg, blocks, mine, wa, both);
    }
  }

  lemma OneMoreJob(jobs: seq<Job>, i: nat, id: JobID)
    requires i < |jobs|
    ensures HasJob(jobs[..i + 1], id) <==> HasJob(jobs[..i], id) || id == jobs[i].id
  {
    assert jobs[..i + 1] == jobs[..i] + [jobs[i]];
    if HasJob(jobs[..i], id) {
      var k :| 0 <= k < i && jobs[..i][k].id == id;
      assert jobs[..i + 1][k].id == id;
    }
    assert jobs[..i + 1][i] == jobs[i];
    if HasJob(jobs[..i + 1], id) && id != jobs[i].id {
      var k :| 0 <= k < i + 1 && jobs[..i + 1][k].id == id;
      assert jobs[..i][k].id == id;
    }
  }

  /** The turn of the loop for one range: candidates are appended unless they conflict with a job
      already in the list. The list holds the jobs of other main groups and those of this one. */
  method AddRange(cfg: Config, blocks: seq<Meta>, ranges: seq<int>, n: nat, shardCount: nat, jobs: seq<Job>,
                  ghost key: Key, ghost before: seq<Job>, ghost mine: seq<Job>)
    returns (longer: seq<Job>, ghost mine': seq<Job>)
    requires n < |ranges| && PositiveRanges(ranges) && NoRepeats(blocks) && SortedBy(blocks, StartsNoLater)
    requires OfKey(blocks, key) && OtherKeys(before, key) && jobs == before + mine
    requires JobList(cfg, blocks, mine, PlannedWant(cfg, Elements(blocks), ranges, shardCount > 0, n))
    ensures longer == before + mine'
    ensures JobList(cfg, blocks, mine', PlannedWant(cfg, Elements(blocks), ranges, shardCount > 0, n + 1))
  {
    var cands := PlanCompactionByRange(cfg, blocks, ranges[n], ranges[n] == ranges[0], shardCount);
    longer, mine' := jobs, mine;
    NothingSeen(cfg, blocks, ranges, shardCount > 0, n, mine, cands);
    for i := 0 to |cands|
      invariant longer == before + mine'
      invariant JobList(cfg, blocks, mine', PartlyWant(cfg, Elements(blocks), ranges, shardCount > 0, n, cands[..i]))
    {
      longer, mine' := Consider(cfg, blocks, ranges, n, shardCount > 0, longer, cands, i, key, before, mine');
    }
    AllSeen(cfg, blocks, ranges, shardCount > 0, n, mine', cands);
  }

  /** One candidate: appended unless it conflicts. */
  method Consider(cfg: Config, ghost blocks: seq<Meta>, ghost ranges: seq<int>, ghost n: nat, ghost enabled: bool,
                  jobs: seq<Job>, cands: seq<Job>, i: nat, ghost key: Key, ghost before: seq<Job>, ghost mine: seq<Job>)
    returns (longer: seq<Job>, ghost mine': seq<Job>)
    requires n < |ranges| && PositiveRanges(ranges) && NoRepeats(blocks) && OfKey(blocks, key) && OtherKeys(before, key)
    requires JobList(cfg, blocks, cands, Want(cfg, Elements(blocks), ranges[n], SplittingAt(ranges, n, enabled))) &&
        i < |cands|
    requires JobList(cfg, blocks, mine, PartlyWant(cfg, Elements(blocks), ranges, enabled, n, cands[..i])) &&
        jobs == before + mine
    ensures longer == before + mine'
    ensures JobList(cfg, blocks, mine', PartlyWant(cfg, Elements(blocks), ranges, enabled, n, cands[..i + 1]))
  {
    longer, mine' := jobs, mine;
    ConflictIffNotClear(cfg, blocks, key, ranges, enabled, n, before, mine, cands, i);
    Accept(cfg, blocks, ranges, enabled, n, mine, cands, i);
    var conflict := HasConflict(cands[i], jobs);
    if !conflict {
      longer, mine' := jobs + [cands[i]], mine + [cands[i]];
    }
  }

  lemma NothingSeen(cfg: Config, blocks: seq<Meta>, ranges: seq<int>, enabled: bool, n: nat, mine: seq<Job>,
                    cands: seq<Job>)
    requires n <= |ranges| && JobList(cfg, blocks, mine, PlannedWant(cfg, Elements(blocks), ranges, enabled, n))
    ensures JobList(cfg, blocks, mine, PartlyWant(cfg, Elements(blocks), ranges, enabled, n, cands[..0]))
  {
    JobListSame(cfg, blocks, mine, PlannedWant(cfg, Elements(blocks), ranges, enabled, n),
      PartlyWant(cfg, Elements(blocks), ranges, enabled, n, cands[..0]));
  }

  lemma AllSeen(cfg: Config, blocks: seq<Meta>, ranges: seq<int>, enabled: bool, n: nat, mine: seq<Job>,
                cands: seq<Job>)
    requires n < |ranges|
    requires JobList(cfg, blocks, cands, Want(cfg, Elements(blocks), ranges[n], SplittingAt(ranges, n, enabled)))
    requires JobList(cfg, blocks, mine, PartlyWant(cfg, Elements(blocks), ranges, enabled, n, cands[..|cands|]))
    ensures JobList(cfg, blocks, mine, PlannedWant(cfg, Elements(blocks), ranges, enabled, n + 1))
  {
    assert cands[..|cands|] == cands;
    var all := Elements(blocks);
    forall id ensures HasJob(cands, id) <==> Candidate(cfg, all, ranges[n], SplittingAt(ranges, n, enabled), id) { }
    JobListSame(cfg, blocks, mine, PartlyWant(cfg, all, ranges, enabled, n, cands),
      PlannedWant(cfg, all, ranges, enabled, n + 1));
  }

  /** The loop over the ranges, in the order they are configured. */
  method PlanMainGroup(cfg: Config, blocks: seq<Meta>, ranges: seq<int>, jobs: seq<Job>, ghost key: Key)
    returns (longer: seq<Job>, ghost mine: seq<Job>)
    requires PositiveRanges(ranges) && NoRepeats(blocks) && SortedBy(blocks, StartsNoLater)
    requires blocks != [] && OfKey(blocks, key) && OtherKeys(jobs, key)
    ensures longer == jobs + mine
    ensures JobList(cfg, blocks, mine, PlannedWant(cfg, Elements(blocks), ranges, ShardCountOf(cfg, key) > 0, |ranges|))
  {
    var shardCount := EffectiveShardCount(cfg, blocks);
    ShardCountIsOfKey(cfg, blocks, key);
    longer, mine := jobs, [];
    for n := 0 to |ranges|
      invariant longer == jobs + mine
      invariant JobList(cfg, blocks, mine, PlannedWant(cfg, Elements(blocks), ranges, shardCount > 0, n))
    {
      longer, mine := AddRange(cfg, blocks, ranges, n, shardCount, longer, key, jobs, mine);
    }
  }

  // ---------- all main groups ----------

  function MainGroup(blocks: set<Meta>, key: Key): set<Meta> {
    set m | m in blocks && KeyOf(m) == key
  }

  /** The job is planned for the main group. No iteration order is involved. */
  ghost predicate InPlan(cfg: Config, blocks: set<Meta>, ranges: seq<int>, key: Key, id: JobID) {
    Planned(cfg, MainGroup(blocks, key), ranges, ShardCountOf(cfg, key) > 0, |ranges|, id)
  }

  /** The job is in the plan of its main group, with exactly its blocks, each once, sorted by MinTime. */
  ghost predicate IsPlannedJob(cfg: Config, blocks: set<Meta>, ranges: seq<int>, job: Job) {
    job.blocks != [] && job.userID == cfg.userID &&
    InPlan(cfg, blocks, ranges, KeyOf(job.blocks[0]), job.id) &&
    Elements(job.blocks) == Selected(cfg, job.id, MainGroup(blocks, KeyOf(job.blocks[0]))) &&
    NoRepeats(job.blocks) && SortedBy(job.blocks, StartsNoLater)
  }

  ghost predicate HasPlannedJob(jobs: seq<Job>, key: Key, id: JobID) {
    exists i :: 0 <= i < |jobs| && jobs[i].id == id && jobs[i].blocks != [] && KeyOf(jobs[i].blocks[0]) == key
  }

  ghost predicate DistinctJobs(jobs: seq<Job>) {
    forall i, j :: 0 <= i < j < |jobs| && jobs[i].blocks != [] && jobs[j].blocks != [] ==>
      jobs[i].id != jobs[j].id || KeyOf(jobs[i].blocks[0]) != KeyOf(jobs[j].blocks[0])
  }

  /** jobs are exactly the planned jobs of the main groups in keys, once each. */
  ghost predicate IsPlanFor(cfg: Config, blocks: set<Meta>, ranges: seq<int>, keys: seq<Key>, jobs: seq<Job>) {
    (forall j :: j in jobs ==> IsPlannedJob(cfg, blocks, ranges, j) && KeyOf(j.blocks[0]) in keys) &&
    (forall key, id :: key in keys && InPlan(cfg, blocks, ranges, key, id) ==> HasPlannedJob(jobs, key, id)) &&
    DistinctJobs(jobs)
  }

  /** sortMetasByMinTime. Blocks that start together may come out in any order. */
  method SortMetasByMinTime(metas: seq<Meta>) returns (sorted: seq<Meta>)
    ensures multiset(sorted) == multiset(metas) && SortedBy(sorted, StartsNoLater)
  {
    sorted := SortBy(metas, StartsNoLater);
  }

  /** The jobs of one main group, listed from its sorted blocks, are its planned jobs. */
  lemma ListedArePlanned(cfg: Config, blocks: set<Meta>, ranges: seq<int>, key: Key, sorted: seq<Meta>, mine: seq<Job>)
    requires NoRepeats(sorted) && SortedBy(sorted, StartsNoLater) && OfKey(sorted, key) &&
        Elements(sorted) == MainGroup(blocks, key)
    requires JobList(cfg, sorted, mine,
        PlannedWant(cfg, Elements(sorted), ranges, ShardCountOf(cfg, key) > 0, |ranges|))
    ensures IsPlanFor(cfg, blocks, ranges, [key], mine)
  {
    forall j | j in mine ensures IsPlannedJob(cfg, blocks, ranges, j) && KeyOf(j.blocks[0]) == key {
      PlannedJobHasBlocks(cfg, sorted, ranges, ShardCountOf(cfg, key) > 0, |ranges|, key, j);
      SelectedAreKept(cfg, sorted, j.id);
      KeepNoRepeats(sorted, Chosen(cfg, j.id));
      KeepSorted(sorted, Chosen(cfg, j.id), StartsNoLater);
    }
    forall id | InPlan(cfg, blocks, ranges, key, id) ensures HasPlannedJob(mine, key, id) {
      assert PlannedWant(cfg, Elements(sorted), ranges, ShardCountOf(cfg, key) > 0, |ranges|)(id);
      assert HasJob(mine, id);
      var i :| 0 <= i < |mine| && mine[i].id == id;
      assert mine[i] in mine;
    }
  }

  lemma PlansCombine(cfg: Config, blocks: set<Meta>, ranges: seq<int>, keys: seq<Key>, jobs: seq<Job>, key: Key,
                     mine: seq<Job>)
    requires IsPlanFor(cfg, blocks, ranges, keys, jobs) && IsPlanFor(cfg, blocks, ranges, [key], mine) && key !in keys
    ensures IsPlanFor(cfg, blocks, ranges, keys + [key], jobs + mine)
  {
    var all := jobs + mine;
    forall k, id | k in keys + [key] && InPlan(cfg, blocks, ranges, k, id) ensures HasPlannedJob(all, k, id) {
      if k in keys {
        assert HasPlannedJob(jobs, k, id);
        var i :| 0 <= i < |jobs| && jobs[i].id == id && jobs[i].blocks != [] && KeyOf(jobs[i].blocks[0]) == k;
        assert all[i] == jobs[i];
      } else {
        assert k in [key];
        assert HasPlannedJob(mine, k, id);
        var i :| 0 <= i < |mine| && mine[i].id == id && mine[i].blocks != [] && KeyOf(mine[i].blocks[0]) == k;
        assert all[|jobs| + i] == mine[i];
      }
    }
    forall i, j | 0 <= i < j < |all| && all[i].blocks != [] && all[j].blocks != []
      ensures all[i].id != all[j].id || KeyOf(all[i].blocks[0]) != KeyOf(all[j].blocks[0])
    {
      if i < |jobs| <= j {
        assert all[i] in jobs && all[j] in mine;
      } else if i >= |jobs| {
        assert all[i] == mine[i - |jobs|] && all[j] == mine[j - |jobs|];
      }
    }
  }

  lemma SortedGroup(blocks: seq<Meta>, groups: map<Key, seq<Meta>>, key: Key, sorted: seq<Meta>)
    requires NoRepeats(blocks) && IsGroupedBy(blocks, MainKey(), groups) && key in groups
    requires multiset(sorted) == multiset(groups[key])
    ensures NoRepeats(sorted) && OfKey(sorted, key) && sorted != [] &&
        Elements(sorted) == MainGroup(Elements(blocks), key)
  {
    KeepNoRepeats(blocks, HasKey(MainKey(), key));
    KeepMembers(blocks, HasKey(MainKey(), key));
    PermutationKeepsDistinct(groups[key], sorted);
    assert groups[key][0] in sorted;
  }

  /** jobs are exactly the planned jobs, once each. */
  ghost predicate IsPlan(cfg: Config, blocks: set<Meta>, ranges: seq<int>, jobs: seq<Job>) {
    (forall j :: j in jobs ==> IsPlannedJob(cfg, blocks, ranges, j)) &&
    (forall key, id :: InPlan(cfg, blocks, ranges, key, id) ==> HasPlannedJob(jobs, key, id)) &&
    DistinctJobs(jobs)
  }

  lemma PlannedKeyHasBlocks(cfg: Config, blocks: set<Meta>, ranges: seq<int>, key: Key, id: JobID) returns (m: Meta)
    requires InPlan(cfg, blocks, ranges, key, id)
    ensures m in blocks && KeyOf(m) == key
  {
    var k := PlannedIsCandidate(cfg, MainGroup(blocks, key), ranges, ShardCountOf(cfg, key) > 0, |ranges|, id);
    m :| m in Selected(cfg, id, MainGroup(blocks, key));
  }

  lemma AllKeysCovered(cfg: Config, blocks: seq<Meta>, ranges: seq<int>, groups: map<Key, seq<Meta>>, keys: seq<Key>,
                       jobs: seq<Job>)
    requires IsGroupedBy(blocks, MainKey(), groups) && forall k :: k in keys <==> k in groups
    requires IsPlanFor(cfg, Elements(blocks), ranges, keys, jobs)
    ensures IsPlan(cfg, Elements(blocks), ranges, jobs)
  {
    forall key, id | InPlan(cfg, Elements(blocks), ranges, key, id) ensures HasPlannedJob(jobs, key, id) {
      var m := PlannedKeyHasBlocks(cfg, Elements(blocks), ranges, key, id);
      GroupMember(blocks, MainKey(), groups, m);
    }
  }

  /** The loop over the main groups, in any order. */
  method PlanAllGroups(cfg: Config, blocks: seq<Meta>, ranges: seq<int>) returns (jobs: seq<Job>)
    requires PositiveRanges(ranges) && NoRepeats(blocks)
    ensures IsPlan(cfg, Elements(blocks), ranges, jobs)
  {
    var groups := GroupBy(blocks, MainKey());
    var keys := KeysInSomeOrder(groups);
    jobs := [];
    for i := 0 to |keys|
      invariant IsPlanFor(cfg, Elements(blocks), ranges, keys[..i], jobs)
    {
      var sorted := SortMetasByMinTime(groups[keys[i]]);
      SortedGroup(blocks, groups, keys[i], sorted);
      ghost var mine;
      ghost var before := jobs;
      assert keys[i] !in keys[..i];
      jobs, mine := PlanMainGroup(cfg, sorted, ranges, jobs, keys[i]);
      ListedArePlanned(cfg, Elements(blocks), ranges, keys[i], sorted, mine);
      PlansCombine(cfg, Elements(blocks), ranges, keys[..i], before, keys[i], mine);
      assert keys[..i + 1] == keys[..i] + [keys[i]];
    }
    assert keys[..|keys|] == keys;
    AllKeysCovered(cfg, blocks, ranges, groups, keys, jobs);
  }
}
