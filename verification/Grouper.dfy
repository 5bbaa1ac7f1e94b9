/** The split-and-merge grouper: from blocks to compaction jobs. */
module Grouper {
  import opened Sharding
  import opened Block
  import opened Sorting
  import opened Sequences
  import opened Ranges
  import opened PlanSpec

  /** A group of blocks within one time range. */
  datatype BlocksGroup = BlocksGroup(rangeStart: int, rangeEnd: int, blocks: seq<Meta>)

  predicate StartsNoLater(a: Meta, b: Meta) {
    a.minTime <= b.minTime
  }

  function InWindow(start: int, end: int): Meta -> bool {
    m => Within(m, start, end)
  }

  ghost predicate IsRangeGroup(blocks: seq<Meta>, tr: int, g: BlocksGroup) {
    Aligned(g.rangeStart, tr) && g.rangeEnd == g.rangeStart + tr &&
    g.blocks == Keep(blocks, InWindow(g.rangeStart, g.rangeEnd)) && g.blocks != []
  }

  ghost predicate HasGroup(groups: seq<BlocksGroup>, start: int) {
    exists i :: 0 <= i < |groups| && groups[i].rangeStart == start
  }

  /** Groups by aligned range, in increasing order of range: each block that lies in an aligned range
      is in the group of that range, with all others of that range, and in no other. */
  ghost predicate IsRangeGrouping(blocks: seq<Meta>, tr: int, groups: seq<BlocksGroup>) {
    (forall i :: 0 <= i < |groups| ==> IsRangeGroup(blocks, tr, groups[i])) &&
    (forall i, j :: 0 <= i < j < |groups| ==> groups[i].rangeEnd <= groups[j].rangeStart) &&
    (forall m, start :: m in blocks && Aligned(start, tr) && Within(m, start, start + tr) ==> HasGroup(groups, start))
  }

  method GroupBlocksByRange(blocks: seq<Meta>, tr: int) returns (groups: seq<BlocksGroup>)
    requires tr > 0 && SortedBy(blocks, StartsNoLater)
    ensures IsRangeGrouping(blocks, tr, groups)
  {
    groups := [];
    var i := 0;
    while i < |blocks|
      invariant 0 <= i <= |blocks|
      invariant IsRangeGrouping(blocks[..i], tr, groups)
      invariant i < |blocks| ==> forall g :: g in groups ==> g.rangeEnd <= blocks[i].minTime
    {
      var m := blocks[i];
      var start := RangeStart(m.minTime, tr);
      RangeStartIsRight(m.minTime, tr);
      if m.maxTime > start + tr {
        SkipBlock(blocks, i, tr, groups);
        i := i + 1;
        continue;
      }
      NoneBefore(blocks, i, tr, start, groups);
      var group, j := CollectGroup(blocks, i, start, start + tr);
      GroupAdded(blocks, i, j, tr, start, groups, group);
      if |group| > 0 {
        groups := groups + [BlocksGroup(start, start + tr, group)];
      }
      i := j;
    }
    assert blocks[..|blocks|] == blocks;
  }

  /** The inner loop: takes the blocks that start in the range, keeping those that end in it. */
  method CollectGroup(blocks: seq<Meta>, i: nat, start: int, end: int) returns (group: seq<Meta>, j: nat)
    requires i < |blocks| && Within(blocks[i], start, end) && SortedBy(blocks, StartsNoLater)
    requires Keep(blocks[..i], InWindow(start, end)) == []
    ensures i < j <= |blocks| && group == Keep(blocks[..j], InWindow(start, end)) && group != []
    ensures forall k :: i <= k < j ==> start <= blocks[k].minTime < end
    ensures j < |blocks| ==> end <= blocks[j].minTime
  {
    ghost var p := InWindow(start, end);
    ghost var kept := (n: nat) requires n <= |blocks| => Keep(blocks[..n], p);
    forall n: nat | n < |blocks| ensures kept(n + 1) == kept(n) + if p(blocks[n]) then [blocks[n]] else [] {
      KeepNext(blocks, n, p);
    }
    group, j := CollectWhile(blocks, i, start, end, p, kept);
  }

  /** The loop itself; kept(n) are the blocks of the first n that p accepts. */
  method CollectWhile(blocks: seq<Meta>, i: nat, start: int, end: int, ghost p: Meta -> bool,
                      ghost kept: nat --> seq<Meta>)
    returns (group: seq<Meta>, j: nat)
    requires i < |blocks| && Within(blocks[i], start, end) && SortedBy(blocks, StartsNoLater)
    requires forall m :: p(m) <==> Within(m, start, end)
    requires forall n: nat :: n <= |blocks| ==> kept.requires(n)
    requires kept(i) == [] && forall n: nat :: n < |blocks| ==>
        kept(n + 1) == kept(n) + if p(blocks[n]) then [blocks[n]] else []
    ensures i < j <= |blocks| && group == kept(j) && group != []
    ensures forall k :: i <= k < j ==> start <= blocks[k].minTime < end
    ensures j < |blocks| ==> end <= blocks[j].minTime
  {
    group := [];
    j := i;
    while j < |blocks|
      invariant i <= j <= |blocks| && group == kept(j) && (j > i ==> group != [])
      invariant forall k :: i <= k < j ==> start <= blocks[k].minTime < end
    {
      if blocks[j].minTime >= end {
        break;
      }
      assert start <= blocks[j].minTime && kept(j + 1) == kept(j) + if p(blocks[j]) then [blocks[j]] else [];
      if blocks[j].maxTime > end {
        j := j + 1;
        continue;
      }
      group := group + [blocks[j]];
      j := j + 1;
    }
  }

  /** Blocks that start at or after every group's end belong to none of the groups. */
  lemma {:induction false} LaterBlocksDoNotMatter(blocks: seq<Meta>, i: nat, j: nat, g: BlocksGroup)
    requires i <= j <= |blocks| && forall k :: i <= k < j ==> blocks[k].minTime >= g.rangeEnd
    ensures Keep(blocks[..j], InWindow(g.rangeStart, g.rangeEnd)) ==
        Keep(blocks[..i], InWindow(g.rangeStart, g.rangeEnd))
    decreases j
  {
    if i < j {
      LaterBlocksDoNotMatter(blocks, i, j - 1, g);
      KeepNext(blocks, j - 1, InWindow(g.rangeStart, g.rangeEnd));
    }
  }

  lemma SkipBlock(blocks: seq<Meta>, i: nat, tr: int, groups: seq<BlocksGroup>)
    requires tr > 0 && i < |blocks| && IsRangeGrouping(blocks[..i], tr, groups)
    requires forall g :: g in groups ==> g.rangeEnd <= blocks[i].minTime
    requires blocks[i].maxTime > RangeStart(blocks[i].minTime, tr) + tr
    ensures IsRangeGrouping(blocks[..i + 1], tr, groups)
  {
    forall k | 0 <= k < |groups| ensures IsRangeGroup(blocks[..i + 1], tr, groups[k]) {
      LaterBlocksDoNotMatter(blocks, i, i + 1, groups[k]);
    }
    var prefix := blocks[..i + 1];
    assert prefix == blocks[..i] + [blocks[i]];
    forall m, start | m in prefix && Aligned(start, tr) && Within(m, start, start + tr)
      ensures HasGroup(groups, start)
    {
      if m == blocks[i] { RangeStartIsUnique(start, m.minTime, tr); }
    }
  }

  lemma NoneBefore(blocks: seq<Meta>, i: nat, tr: int, start: int, groups: seq<BlocksGroup>)
    requires tr > 0 && i < |blocks| && IsRangeGrouping(blocks[..i], tr, groups)
    requires forall g :: g in groups ==> g.rangeEnd <= blocks[i].minTime
    requires Aligned(start, tr) && start <= blocks[i].minTime < start + tr
    ensures Keep(blocks[..i], InWindow(start, start + tr)) == []
    ensures !HasGroup(groups, start)
  {
    assert !HasGroup(groups, start);
    KeepNone(blocks[..i], InWindow(start, start + tr));
  }

  lemma GroupAdded(blocks: seq<Meta>, i: nat, j: nat, tr: int, start: int, groups: seq<BlocksGroup>, group: seq<Meta>)
    requires tr > 0 && i < j <= |blocks| && IsRangeGrouping(blocks[..i], tr, groups)
    requires forall g :: g in groups ==> g.rangeEnd <= blocks[i].minTime
    requires Aligned(start, tr) && forall k :: i <= k < j ==> start <= blocks[k].minTime < start + tr
    requires SortedBy(blocks, StartsNoLater)
    requires group == Keep(blocks[..j], InWindow(start, start + tr)) && group != []
    ensures IsRangeGrouping(blocks[..j], tr, groups + [BlocksGroup(start, start + tr, group)])
  {
    var all := groups + [BlocksGroup(start, start + tr, group)];
    forall k | 0 <= k < |groups| ensures IsRangeGroup(blocks[..j], tr, groups[k]) && groups[k].rangeEnd <= start {
      LaterBlocksDoNotMatter(blocks, i, j, groups[k]);
      assert groups[k] in groups;
      if start < groups[k].rangeEnd { AlignedRangesAreDisjoint(start, groups[k].rangeStart, tr); }
    }
    forall m, s | m in blocks[..j] && Aligned(s, tr) && Within(m, s, s + tr) ensures HasGroup(all, s) {
      if m in blocks[..i] {
        assert HasGroup(groups, s);
        var k :| 0 <= k < |groups| && groups[k].rangeStart == s;
        assert all[k].rangeStart == s;
      } else {
        AlignedRangesAreDisjoint(s, start, tr);
        assert all[|groups|].rangeStart == s;
      }
    }
  }

  // ---------- jobs ----------

  /** A planned compaction job. */
  datatype Job = Job(userID: string, id: JobID, blocks: seq<Meta>)

  function Chosen(cfg: Config, id: JobID): Meta -> bool {
    m => Selects(cfg, id, m)
  }

  /** jobs are exactly the wanted jobs, once each, with their blocks in the order of base. */
  ghost predicate JobList(cfg: Config, base: seq<Meta>, jobs: seq<Job>, want: JobID -> bool) {
    (forall i :: 0 <= i < |jobs| ==> IsJob(cfg, base, jobs[i]) && want(jobs[i].id)) &&
    (forall id :: want(id) ==> HasJob(jobs, id)) &&
    (forall i, j :: 0 <= i < j < |jobs| ==> jobs[i].id != jobs[j].id)
  }

  predicate IsJob(cfg: Config, base: seq<Meta>, job: Job) {
    job.userID == cfg.userID && job.blocks == Keep(base, Chosen(cfg, job.id))
  }

  ghost predicate HasJob(jobs: seq<Job>, id: JobID) {
    exists i :: 0 <= i < |jobs| && jobs[i].id == id
  }

  lemma JobListAppend(cfg: Config, base: seq<Meta>, a: seq<Job>, wa: JobID -> bool, b: seq<Job>, wb: JobID -> bool,
                      both: JobID -> bool)
    requires JobList(cfg, base, a, wa) && JobList(cfg, base, b, wb)
    requires forall id :: !(wa(id) && wb(id))
    requires forall id :: both(id) <==> wa(id) || wb(id)
    ensures JobList(cfg, base, a + b, both)
  {
    var all := a + b;
    forall i | 0 <= i < |all| ensures IsJob(cfg, base, all[i]) && both(all[i].id) {
      assert all[i] == if i < |a| then a[i] else b[i - |a|];
    }
    forall id | both(id) ensures HasJob(all, id) {
      if wa(id) {
        assert HasJob(a, id);
        var i :| 0 <= i < |a| && a[i].id == id;
        assert all[i].id == id;
      } else {
        assert HasJob(b, id);
        var i :| 0 <= i < |b| && b[i].id == id;
        assert all[|a| + i].id == id;
      }
    }
  }

  // ---------- splitting ----------

  function Unsharded(): Meta -> bool {
    m => ShardID(m) == ""
  }

  method GetNonShardedBlocks(blocks: seq<Meta>) returns (out: seq<Meta>)
    ensures out == Keep(blocks, Unsharded())
  {
    out := [];
    for i := 0 to |blocks|
      invariant out == Keep(blocks[..i], Unsharded())
    {
      KeepNext(blocks, i, Unsharded());
      if ShardID(blocks[i]) == "" {
        out := out + [blocks[i]];
      }
    }
    assert blocks[..|blocks|] == blocks;
  }

  function SplitGroupOf(cfg: Config, id: ULID): nat {
    cfg.hash(id) % SplitGroups(cfg)
  }

  function SplitGroupKey(cfg: Config): Meta -> nat {
    (m: Meta) => SplitGroupOf(cfg, m.ulid)
  }

  function SplitID(cfg: Config, g: BlocksGroup, k: nat): JobID {
    JobID(Split, FormatShardID(k, SplitGroups(cfg)), g.rangeStart, g.rangeEnd)
  }

  /** The split jobs of a group: one for each split group some unsharded block of it falls in. */
  ghost predicate SplitWanted(cfg: Config, g: BlocksGroup, id: JobID) {
    id.stage.Split? && id.rangeStart == g.rangeStart && id.rangeEnd == g.rangeEnd &&
    exists m :: m in g.blocks && Selects(cfg, id, m)
  }

  ghost function SplitWant(cfg: Config, g: BlocksGroup): JobID -> bool {
    id => SplitWanted(cfg, g, id)
  }

  /** All blocks of a group lie in its range. */
  predicate InItsRange(g: BlocksGroup) {
    forall m :: m in g.blocks ==> Within(m, g.rangeStart, g.rangeEnd)
  }

  /** planSplitting: one job for each split group that gets an unsharded block, in any order. */
  method PlanSplitting(cfg: Config, g: BlocksGroup) returns (jobs: seq<Job>)
    requires InItsRange(g)
    ensures JobList(cfg, g.blocks, jobs, SplitWant(cfg, g))
    ensures jobs == [] <==> forall m :: m in g.blocks ==> ShardID(m) != ""
  {
    var blocks := GetNonShardedBlocks(g.blocks);
    var groups := GroupBy(blocks, SplitGroupKey(cfg));
    var keys := KeysInSomeOrder(groups);
    jobs := [];
    for i := 0 to |keys|
      invariant |jobs| == i && forall j :: 0 <= j < i ==>
          jobs[j] == Job(cfg.userID, SplitID(cfg, g, keys[j]), groups[keys[j]])
    {
      jobs := jobs + [Job(cfg.userID, SplitID(cfg, g, keys[i]), groups[keys[i]])];
    }
    SplitJobsAreWanted(cfg, g, blocks, groups, keys, jobs);
  }

  lemma SplitJobsAreWanted(cfg: Config, g: BlocksGroup, blocks: seq<Meta>, groups: map<nat, seq<Meta>>, keys: seq<nat>,
                           jobs: seq<Job>)
    requires InItsRange(g) && blocks == Keep(g.blocks, Unsharded()) && IsGroupedBy(blocks, SplitGroupKey(cfg), groups)
    requires NoRepeats(keys) && forall k :: k in keys <==> k in groups
    requires |jobs| == |keys| && forall j :: 0 <= j < |keys| ==>
        jobs[j] == Job(cfg.userID, SplitID(cfg, g, keys[j]), groups[keys[j]])
    ensures JobList(cfg, g.blocks, jobs, SplitWant(cfg, g))
    ensures jobs == [] <==> forall m :: m in g.blocks ==> ShardID(m) != ""
  {
    KeepMembers(g.blocks, Unsharded());
    forall j | 0 <= j < |jobs|
      ensures IsJob(cfg, g.blocks, jobs[j]) && SplitWanted(cfg, g, jobs[j].id) && keys[j] < SplitGroups(cfg)
    {
      SplitJobIsWanted(cfg, g, keys[j], groups);
    }
    forall id | SplitWanted(cfg, g, id) ensures HasJob(jobs, id) {
      var m :| m in g.blocks && Selects(cfg, id, m);
      GroupMember(blocks, SplitGroupKey(cfg), groups, m);
      var j :| 0 <= j < |keys| && keys[j] == SplitGroupOf(cfg, m.ulid);
      assert jobs[j].id == id;
    }
    forall i, j | 0 <= i < j < |jobs| ensures jobs[i].id != jobs[j].id {
      if jobs[i].id == jobs[j].id { FormatIsInjective(keys[i], SplitGroups(cfg), keys[j], SplitGroups(cfg)); }
    }
    forall m | m in g.blocks && ShardID(m) == "" ensures jobs != [] {
      GroupMember(blocks, SplitGroupKey(cfg), groups, m);
      assert SplitGroupOf(cfg, m.ulid) in keys;
    }
    if jobs != [] {
      assert SplitWanted(cfg, g, jobs[0].id);
    }
  }

  lemma SplitJobIsWanted(cfg: Config, g: BlocksGroup, k: nat, groups: map<nat, seq<Meta>>)
    requires InItsRange(g) && IsGroupedBy(Keep(g.blocks, Unsharded()), SplitGroupKey(cfg), groups) && k in groups
    ensures k < SplitGroups(cfg) && groups[k] == Keep(g.blocks, Chosen(cfg, SplitID(cfg, g, k))) &&
        SplitWanted(cfg, g, SplitID(cfg, g, k))
  {
    var blocks, n := Keep(g.blocks, Unsharded()), SplitGroups(cfg);
    var first := groups[k][0];
    KeepMember(blocks, HasKey(SplitGroupKey(cfg), k), first);
    KeepMember(g.blocks, Unsharded(), first);
    assert k < n;
    forall m | m in g.blocks
      ensures Chosen(cfg, SplitID(cfg, g, k))(m) == (Unsharded()(m) && HasKey(SplitGroupKey(cfg), k)(m))
    {
      if SplitShard(cfg, m.ulid) == FormatShardID(k, n) { FormatIsInjective(SplitGroupOf(cfg, m.ulid), n, k, n); }
    }
    KeepTwice(g.blocks, Unsharded(), HasKey(SplitGroupKey(cfg), k), Chosen(cfg, SplitID(cfg, g, k)));
    assert Selects(cfg, SplitID(cfg, g, k), first);
  }

  // ---------- merging ----------

  function ShardKey(): Meta -> string {
    (m: Meta) => ShardID(m)
  }

  function MergeID(g: BlocksGroup, shardID: string): JobID {
    JobID(Merge, shardID, g.rangeStart, g.rangeEnd)
  }

  /** The merge jobs of a group: one for each shard with two blocks or more. */
  ghost predicate MergeWanted(cfg: Config, g: BlocksGroup, id: JobID) {
    id.stage.Merge? && id.rangeStart == g.rangeStart && id.rangeEnd == g.rangeEnd &&
    |Keep(g.blocks, Chosen(cfg, id))| >= 2
  }

  ghost function MergeWant(cfg: Config, g: BlocksGroup): JobID -> bool {
    id => MergeWanted(cfg, g, id)
  }

  lemma ShardBlocksAreChosen(cfg: Config, g: BlocksGroup, shardID: string)
    requires InItsRange(g)
    ensures Keep(g.blocks, HasKey(ShardKey(), shardID)) == Keep(g.blocks, Chosen(cfg, MergeID(g, shardID)))
  {
    KeepSame(g.blocks, HasKey(ShardKey(), shardID), Chosen(cfg, MergeID(g, shardID)));
  }

  lemma StillHasJob(before: seq<Job>, jobs: seq<Job>, id: JobID)
    requires before <= jobs && HasJob(before, id)
    ensures HasJob(jobs, id)
  {
    var j :| 0 <= j < |before| && before[j].id == id;
    assert jobs[j] == before[j];
  }

  method PlanMerging(cfg: Config, g: BlocksGroup) returns (jobs: seq<Job>)
    requires InItsRange(g)
    ensures JobList(cfg, g.blocks, jobs, MergeWant(cfg, g))
  {
    var shards := GroupBy(g.blocks, ShardKey());
    var keys := KeysInSomeOrder(shards);
    jobs := [];
    for i := 0 to |keys|
      invariant forall j :: 0 <= j < |jobs| ==>
          IsJob(cfg, g.blocks, jobs[j]) && MergeWanted(cfg, g, jobs[j].id) && jobs[j].id.shardID in keys[..i]
      invariant forall k :: 0 <= k < i && MergeWanted(cfg, g, MergeID(g, keys[k])) ==> HasJob(jobs, MergeID(g, keys[k]))
      invariant forall j, k :: 0 <= j < k < |jobs| ==> jobs[j].id != jobs[k].id
    {
      ShardBlocksAreChosen(cfg, g, keys[i]);
      ghost var before := jobs;
      if |shards[keys[i]]| >= 2 {
        var job := Job(cfg.userID, MergeID(g, keys[i]), shards[keys[i]]);
        assert keys[i] !in keys[..i];
        jobs := jobs + [job];
        assert jobs[|before|] == job;
      }
      forall id | HasJob(before, id) ensures HasJob(jobs, id) { StillHasJob(before, jobs, id); }
    }
    forall id | MergeWanted(cfg, g, id) ensures HasJob(jobs, id) {
      ShardBlocksAreChosen(cfg, g, id.shardID);
      assert id.shardID in shards && id == MergeID(g, id.shardID);
      var k :| 0 <= k < |keys| && keys[k] == id.shardID;
    }
  }

  // ---------- one range length ----------

  ghost predicate CandidateAt(cfg: Config, blocks: set<Meta>, tr: int, splitting: bool, start: int, id: JobID) {
    id.rangeStart == start && Candidate(cfg, blocks, tr, splitting, id)
  }

  ghost function WantAt(cfg: Config, blocks: set<Meta>, tr: int, splitting: bool, start: int): JobID -> bool {
    id => CandidateAt(cfg, blocks, tr, splitting, start, id)
  }

  ghost function Want(cfg: Config, blocks: set<Meta>, tr: int, splitting: bool): JobID -> bool {
    id => Candidate(cfg, blocks, tr, splitting, id)
  }

  ghost function WantIn(cfg: Config, blocks: set<Meta>, tr: int, splitting: bool,
                        groups: seq<BlocksGroup>): JobID -> bool {
    id => Candidate(cfg, blocks, tr, splitting, id) && HasGroup(groups, id.rangeStart)
  }

  /** Within a group the blocks of a job are those it has among all blocks. */
  lemma ChosenOfGroup(cfg: Config, blocks: seq<Meta>, g: BlocksGroup, id: JobID)
    requires g.blocks == Keep(blocks, InWindow(g.rangeStart, g.rangeEnd)) && id.rangeStart == g.rangeStart &&
        id.rangeEnd == g.rangeEnd
    ensures Keep(g.blocks, Chosen(cfg, id)) == Keep(blocks, Chosen(cfg, id))
  {
    KeepTwice(blocks, InWindow(g.rangeStart, g.rangeEnd), Chosen(cfg, id), Chosen(cfg, id));
  }

  lemma SelectedAreKept(cfg: Config, blocks: seq<Meta>, id: JobID)
    requires NoRepeats(blocks)
    ensures Elements(Keep(blocks, Chosen(cfg, id))) == Selected(cfg, id, Elements(blocks))
    ensures |Keep(blocks, Chosen(cfg, id))| == |Selected(cfg, id, Elements(blocks))|
  {
    KeepMembers(blocks, Chosen(cfg, id));
    KeepNoRepeats(blocks, Chosen(cfg, id));
    SizeOfElements(Keep(blocks, Chosen(cfg, id)));
  }

  /** What is wanted of a group is what the candidates of its range are. */
  lemma WantedIsCandidate(cfg: Config, blocks: seq<Meta>, tr: int, splitting: bool, g: BlocksGroup, id: JobID)
    requires NoRepeats(blocks) && IsRangeGroup(blocks, tr, g)
    ensures var unsplit := exists m :: m in g.blocks && ShardID(m) == "";
            CandidateAt(cfg, Elements(blocks), tr, splitting, g.rangeStart, id) <==>
            if splitting && unsplit then SplitWanted(cfg, g, id) else MergeWanted(cfg, g, id)
  {
    KeepMembers(blocks, InWindow(g.rangeStart, g.rangeEnd));
    assert NeedsSplit(Elements(blocks), g.rangeStart, g.rangeEnd) <==> exists m :: m in g.blocks && ShardID(m) == "";
    if id.rangeStart == g.rangeStart && id.rangeEnd == g.rangeEnd {
      SelectedAreKept(cfg, blocks, id);
      ChosenOfGroup(cfg, blocks, g, id);
      KeepMembers(g.blocks, Chosen(cfg, id));
    }
  }

  lemma GroupIsInItsRange(blocks: seq<Meta>, tr: int, g: BlocksGroup)
    requires IsRangeGroup(blocks, tr, g)
    ensures InItsRange(g)
  {
    KeepMembers(blocks, InWindow(g.rangeStart, g.rangeEnd));
  }

  lemma GroupJobsAreCandidates(cfg: Config, blocks: seq<Meta>, tr: int, splitting: bool, g: BlocksGroup, jobs: seq<Job>,
                               want: JobID -> bool)
    requires NoRepeats(blocks) && IsRangeGroup(blocks, tr, g) && JobList(cfg, g.blocks, jobs, want)
    requires forall id :: want(id) <==>
        if splitting && exists m :: m in g.blocks && ShardID(m) == "" then SplitWanted(cfg, g, id)
        else MergeWanted(cfg, g, id)
    ensures JobList(cfg, blocks, jobs, WantAt(cfg, Elements(blocks), tr, splitting, g.rangeStart))
  {
    forall id ensures WantAt(cfg, Elements(blocks), tr, splitting, g.rangeStart)(id) <==> want(id) {
      WantedIsCandidate(cfg, blocks, tr, splitting, g, id);
    }
    forall i | 0 <= i < |jobs| ensures IsJob(cfg, blocks, jobs[i]) {
      ChosenOfGroup(cfg, blocks, g, jobs[i].id);
    }
  }

  /** The turn of the loop for one group: split jobs if splitting is due, else merge jobs. */
  method PlanGroup(cfg: Config, g: BlocksGroup, splitting: bool, ghost blocks: seq<Meta>, ghost tr: int)
      returns (jobs: seq<Job>)
    requires NoRepeats(blocks) && IsRangeGroup(blocks, tr, g)
    ensures JobList(cfg, blocks, jobs, WantAt(cfg, Elements(blocks), tr, splitting, g.rangeStart))
  {
    GroupIsInItsRange(blocks, tr, g);
    if splitting {
      jobs := PlanSplitting(cfg, g);
      if |jobs| > 0 {
        GroupJobsAreCandidates(cfg, blocks, tr, splitting, g, jobs, SplitWant(cfg, g));
        return;
      }
    }
    jobs := PlanMerging(cfg, g);
    GroupJobsAreCandidates(cfg, blocks, tr, splitting, g, jobs, MergeWant(cfg, g));
  }

  method PlanCompactionByRange(cfg: Config, blocks: seq<Meta>, tr: int, isSmallest: bool, shardCount: nat)
      returns (jobs: seq<Job>)
    requires tr > 0 && SortedBy(blocks, StartsNoLater) && NoRepeats(blocks)
    ensures JobList(cfg, blocks, jobs, Want(cfg, Elements(blocks), tr, shardCount > 0 && isSmallest))
  {
    var groups := GroupBlocksByRange(blocks, tr);
    var splitting := shardCount > 0 && isSmallest;
    jobs := [];
    NoGroupYet(cfg, blocks, tr, splitting, groups);
    for i := 0 to |groups|
      invariant JobList(cfg, blocks, jobs, WantIn(cfg, Elements(blocks), tr, splitting, groups[..i]))
    {
      var more := PlanGroup(cfg, groups[i], splitting, blocks, tr);
      NextGroup(cfg, blocks, tr, splitting, groups, i, jobs, more);
      jobs := jobs + more;
    }
    EveryCandidateHasGroup(cfg, blocks, tr, splitting, groups);
    JobListSame(cfg, blocks, jobs, WantIn(cfg, Elements(blocks), tr, splitting, groups[..|groups|]),
                Want(cfg, Elements(blocks), tr, splitting));
  }

  lemma NoGroupYet(cfg: Config, blocks: seq<Meta>, tr: int, splitting: bool, groups: seq<BlocksGroup>)
    ensures JobList(cfg, blocks, [], WantIn(cfg, Elements(blocks), tr, splitting, groups[..0]))
  {
  }

  lemma NextGroup(cfg: Config, blocks: seq<Meta>, tr: int, splitting: bool, groups: seq<BlocksGroup>, i: nat,
                  jobs: seq<Job>, more: seq<Job>)
    requires tr > 0 && IsRangeGrouping(blocks, tr, groups) && i < |groups|
    requires JobList(cfg, blocks, jobs, WantIn(cfg, Elements(blocks), tr, splitting, groups[..i]))
    requires JobList(cfg, blocks, more, WantAt(cfg, Elements(blocks), tr, splitting, groups[i].rangeStart))
    ensures JobList(cfg, blocks, jobs + more, WantIn(cfg, Elements(blocks), tr, splitting, groups[..i + 1]))
  {
    var all := Elements(blocks);
    forall start
      ensures HasGroup(groups[..i + 1], start) <==> HasGroup(groups[..i], start) || start == groups[i].rangeStart
    {
      if HasGroup(groups[..i], start) {
        var k :| 0 <= k < i && groups[..i][k].rangeStart == start;
        assert groups[..i + 1][k].rangeStart == start;
      }
      assert groups[..i + 1][i] == groups[i];
      if HasGroup(groups[..i + 1], start) && start != groups[i].rangeStart {
        var k :| 0 <= k < i + 1 && groups[..i + 1][k].rangeStart == start;
        assert groups[..i][k].rangeStart == start;
      }
    }
    assert !HasGroup(groups[..i], groups[i].rangeStart) by {
      forall k | 0 <= k < i ensures groups[..i][k].rangeStart != groups[i].rangeStart {
        assert groups[k].rangeEnd <= groups[i].rangeStart;
      }
    }
    JobListAppend(cfg, blocks, jobs, WantIn(cfg, all, tr, splitting, groups[..i]),
                  more, WantAt(cfg, all, tr, splitting, groups[i].rangeStart),
                  WantIn(cfg, all, tr, splitting, groups[..i + 1]));
  }

  lemma JobListSame(cfg: Config, base: seq<Meta>, jobs: seq<Job>, a: JobID -> bool, b: JobID -> bool)
    requires JobList(cfg, base, jobs, a) && forall id :: a(id) <==> b(id)
    ensures JobList(cfg, base, jobs, b)
  {
  }

  lemma EveryCandidateHasGroup(cfg: Config, blocks: seq<Meta>, tr: int, splitting: bool, groups: seq<BlocksGroup>)
    requires IsRangeGrouping(blocks, tr, groups)
    ensures forall id :: WantIn(cfg, Elements(blocks), tr, splitting, groups[..|groups|])(id) <==>
        Want(cfg, Elements(blocks), tr, splitting)(id)
  {
    assert groups[..|groups|] == groups;
    forall id | Candidate(cfg, Elements(blocks), tr, splitting, id) ensures HasGroup(groups, id.rangeStart) {
      var m :| m in Selected(cfg, id, Elements(blocks));
      assert m in blocks && Within(m, id.rangeStart, id.rangeStart + tr);
    }
  }
}
