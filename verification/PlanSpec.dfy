/** Which compaction jobs get planned, and what that guarantees, stated on sets of blocks: no order of
    iteration appears here. A job is identified by its stage, shard and range; within one main group
    (blocks of one resolution and one set of labels other than the shard ID) that fixes its blocks. */
module PlanSpec {
  import opened Sharding
  import opened Block
  import opened Ranges

  datatype Stage = Split | Merge

  datatype JobID = JobID(stage: Stage, shardID: string, rangeStart: int, rangeEnd: int)

  const UINT32: nat := 0x1_0000_0000

  /** The tenant's settings. hash is the 32-bit hash of a block ID. */
  datatype Config = Config(userID: string, shards: int, oooShards: int, splitGroups: int, hash: ULID -> nat)

  /** The number of split groups: converted to uint32, and 1 when 0. */
  function SplitGroups(cfg: Config): (n: nat)
    ensures 0 < n < UINT32
  {
    var n := cfg.splitGroups % UINT32;
    if n == 0 then 1 else n
  }

  /** The shard of the split job a block goes to. */
  function SplitShard(cfg: Config, id: ULID): string {
    FormatShardID(cfg.hash(id) % SplitGroups(cfg), SplitGroups(cfg))
  }

  /** The block starts inside the range and does not end beyond it. */
  predicate Within(m: Meta, start: int, end: int) {
    start <= m.minTime < end && m.maxTime <= end
  }

  /** The block goes to the job. */
  predicate Selects(cfg: Config, id: JobID, m: Meta) {
    Within(m, id.rangeStart, id.rangeEnd) &&
    match id.stage
    case Split => ShardID(m) == "" && SplitShard(cfg, m.ulid) == id.shardID
    case Merge => ShardID(m) == id.shardID
  }

  function Selected(cfg: Config, id: JobID, blocks: set<Meta>): set<Meta> {
    set m | m in blocks && Selects(cfg, id, m)
  }

  /** Some block of the range is not split yet. */
  predicate NeedsSplit(blocks: set<Meta>, start: int, end: int) {
    exists m :: m in blocks && Within(m, start, end) && ShardID(m) == ""
  }

  /** The jobs of one range length: split jobs where splitting is due, else merges of two or more. */
  ghost predicate Candidate(cfg: Config, blocks: set<Meta>, tr: int, splitting: bool, id: JobID) {
    id.rangeEnd == id.rangeStart + tr && Aligned(id.rangeStart, tr) &&
    if splitting && NeedsSplit(blocks, id.rangeStart, id.rangeEnd)
    then id.stage.Split? && Selected(cfg, id, blocks) != {}
    else id.stage.Merge? && |Selected(cfg, id, blocks)| >= 2
  }

  predicate Overlap(a: JobID, b: JobID) {
    a.rangeStart < b.rangeEnd && b.rangeStart < a.rangeEnd
  }

  /** Two jobs of one main group cannot be planned together. */
  predicate Clash(a: JobID, b: JobID) {
    Overlap(a, b) && (a.stage != b.stage || a.shardID == b.shardID)
  }

  predicate PositiveRanges(ranges: seq<int>) {
    forall k :: 0 <= k < |ranges| ==> ranges[k] > 0
  }

  /** Splitting is done for the first range only, when the shard count is positive. */
  predicate SplittingAt(ranges: seq<int>, k: nat, enabled: bool)
    requires k < |ranges|
  {
    enabled && ranges[k] == ranges[0]
  }

  /** The jobs planned with the first n ranges: those planned before, and the candidates of range n-1
      that clash with none of them. */
  ghost predicate Planned(cfg: Config, blocks: set<Meta>, ranges: seq<int>, enabled: bool, n: nat, id: JobID)
    requires n <= |ranges|
    decreases n, 0
  {
    n > 0 &&
    (Planned(cfg, blocks, ranges, enabled, n - 1, id) ||
     (Candidate(cfg, blocks, ranges[n - 1], SplittingAt(ranges, n - 1, enabled), id) &&
      ClearOf(cfg, blocks, ranges, enabled, n - 1, id)))
  }

  ghost predicate ClearOf(cfg: Config, blocks: set<Meta>, ranges: seq<int>, enabled: bool, n: nat, id: JobID)
    requires n <= |ranges|
    decreases n, 1
  {
    forall other :: Planned(cfg, blocks, ranges, enabled, n, other) ==> !Clash(id, other)
  }

  // ---------- jobs can run together ----------

  /** Candidates of one range length never clash, so none is dropped because of another. */
  lemma CandidatesDoNotClash(cfg: Config, blocks: set<Meta>, tr: int, splitting: bool, a: JobID, b: JobID)
    requires tr > 0 && Candidate(cfg, blocks, tr, splitting, a) && Candidate(cfg, blocks, tr, splitting, b) &&
        Clash(a, b)
    ensures a == b
  {
    AlignedRangesAreDisjoint(a.rangeStart, b.rangeStart, tr);
  }

  /** Every planned job comes from some range. */
  lemma {:induction false} PlannedIsCandidate(cfg: Config, blocks: set<Meta>, ranges: seq<int>, enabled: bool, n: nat,
                                              id: JobID)
    returns (k: nat)
    requires n <= |ranges| && Planned(cfg, blocks, ranges, enabled, n, id)
    ensures k < n && Candidate(cfg, blocks, ranges[k], SplittingAt(ranges, k, enabled), id)
  {
    if Planned(cfg, blocks, ranges, enabled, n - 1, id) {
      k := PlannedIsCandidate(cfg, blocks, ranges, enabled, n - 1, id);
    } else {
      k := n - 1;
    }
  }

  lemma {:induction false} PlannedStays(cfg: Config, blocks: set<Meta>, ranges: seq<int>, enabled: bool, m: nat, n: nat,
                                        id: JobID)
    requires m <= n <= |ranges| && Planned(cfg, blocks, ranges, enabled, m, id)
    ensures Planned(cfg, blocks, ranges, enabled, n, id)
    decreases n
  {
    if m < n { PlannedStays(cfg, blocks, ranges, enabled, m, n - 1, id); }
  }

  /** Planned jobs are pairwise free of conflicts, for every list of ranges. */
  lemma {:induction false} PlannedDoNotClash(cfg: Config, blocks: set<Meta>, ranges: seq<int>, enabled: bool, n: nat,
                                             a: JobID, b: JobID)
    requires n <= |ranges| && PositiveRanges(ranges)
    requires Planned(cfg, blocks, ranges, enabled, n, a) && Planned(cfg, blocks, ranges, enabled, n, b) && a != b
    ensures !Clash(a, b)
    decreases n
  {
    var pa := Planned(cfg, blocks, ranges, enabled, n - 1, a);
    var pb := Planned(cfg, blocks, ranges, enabled, n - 1, b);
    if pa && pb {
      PlannedDoNotClash(cfg, blocks, ranges, enabled, n - 1, a, b);
    } else if pa {
      assert ClearOf(cfg, blocks, ranges, enabled, n - 1, b);
      assert Clash(a, b) ==> Clash(b, a);
    } else if pb {
      assert ClearOf(cfg, blocks, ranges, enabled, n - 1, a);
    } else if Clash(a, b) {
      CandidatesDoNotClash(cfg, blocks, ranges[n - 1], SplittingAt(ranges, n - 1, enabled), a, b);
    }
  }

  /** Two jobs that would share a block clash. */
  lemma SharingIsClashing(cfg: Config, a: JobID, b: JobID, m: Meta)
    requires Selects(cfg, a, m) && Selects(cfg, b, m)
    ensures Clash(a, b)
  {
  }

  /** No block belongs to two planned jobs. */
  lemma PlannedAreDisjoint(cfg: Config, blocks: set<Meta>, ranges: seq<int>, enabled: bool, n: nat, a: JobID, b: JobID)
    requires n <= |ranges| && PositiveRanges(ranges)
    requires Planned(cfg, blocks, ranges, enabled, n, a) && Planned(cfg, blocks, ranges, enabled, n, b) && a != b
    ensures Selected(cfg, a, blocks) !! Selected(cfg, b, blocks)
  {
    PlannedDoNotClash(cfg, blocks, ranges, enabled, n, a, b);
    forall m | m in blocks && Selects(cfg, a, m) && Selects(cfg, b, m) ensures false {
      SharingIsClashing(cfg, a, b, m);
    }
  }

  // ---------- the plan is empty exactly when there is nothing to do ----------

  /** Two blocks of one shard lie in the same aligned range of length tr. */
  ghost predicate MergeableAt(blocks: set<Meta>, tr: int, start: int, a: Meta, b: Meta) {
    a in blocks && b in blocks && a != b && ShardID(a) == ShardID(b) && Aligned(start, tr) &&
    Within(a, start, start + tr) && Within(b, start, start + tr)
  }

  /** An unsharded block lies in an aligned range of length tr. */
  ghost predicate SplittableAt(blocks: set<Meta>, tr: int, start: int, m: Meta) {
    m in blocks && ShardID(m) == "" && Aligned(start, tr) && Within(m, start, start + tr)
  }

  ghost predicate WorkLeft(blocks: set<Meta>, ranges: seq<int>, enabled: bool) {
    (exists k, start, a, b :: 0 <= k < |ranges| && MergeableAt(blocks, ranges[k], start, a, b)) ||
    (enabled && |ranges| > 0 && exists start, m :: SplittableAt(blocks, ranges[0], start, m))
  }

  lemma TwoMembers<T>(s: set<T>) returns (a: T, b: T)
    requires |s| >= 2
    ensures a in s && b in s && a != b
  {
    a :| a in s;
    assert |s - {a}| == |s| - 1;
    b :| b in s - {a};
  }

  lemma AtLeastTwo<T>(s: set<T>, a: T, b: T)
    requires a in s && b in s && a != b
    ensures |s| >= 2
  {
    assert |s - {a}| == |s| - 1 && b in s - {a};
  }

  lemma CandidateIsWork(cfg: Config, blocks: set<Meta>, ranges: seq<int>, enabled: bool, k: nat, id: JobID)
    requires k < |ranges| && Candidate(cfg, blocks, ranges[k], SplittingAt(ranges, k, enabled), id)
    ensures WorkLeft(blocks, ranges, enabled)
  {
    if id.stage.Split? {
      var m :| m in Selected(cfg, id, blocks);
      assert SplittableAt(blocks, ranges[0], id.rangeStart, m);
    } else {
      var a, b := TwoMembers(Selected(cfg, id, blocks));
      assert MergeableAt(blocks, ranges[k], id.rangeStart, a, b);
    }
  }

  lemma SplitWorkIsCandidate(cfg: Config, blocks: set<Meta>, tr: int, start: int, m: Meta) returns (id: JobID)
    requires SplittableAt(blocks, tr, start, m)
    ensures Candidate(cfg, blocks, tr, true, id)
  {
    id := JobID(Split, SplitShard(cfg, m.ulid), start, start + tr);
    assert m in Selected(cfg, id, blocks);
  }

  lemma WorkIsCandidate(cfg: Config, blocks: set<Meta>, ranges: seq<int>, enabled: bool) returns (k: nat, id: JobID)
    requires WorkLeft(blocks, ranges, enabled)
    ensures k < |ranges| && Candidate(cfg, blocks, ranges[k], SplittingAt(ranges, k, enabled), id)
  {
    if enabled && |ranges| > 0 && exists start, m :: SplittableAt(blocks, ranges[0], start, m) {
      var start, m :| SplittableAt(blocks, ranges[0], start, m);
      k := 0;
      id := SplitWorkIsCandidate(cfg, blocks, ranges[0], start, m);
    } else {
      var i, start, a, b :| 0 <= i < |ranges| && MergeableAt(blocks, ranges[i], start, a, b);
      k := i;
      id := JobID(Merge, ShardID(a), start, start + ranges[k]);
      AtLeastTwo(Selected(cfg, id, blocks), a, b);
      if SplittingAt(ranges, k, enabled) && NeedsSplit(blocks, start, start + ranges[k]) {
        var m :| m in blocks && Within(m, start, start + ranges[k]) && ShardID(m) == "";
        assert SplittableAt(blocks, ranges[0], start, m);
      }
    }
  }

  /** A candidate is planned, unless a job it clashes with is. */
  lemma {:induction false} CandidateLeavesAJob(cfg: Config, blocks: set<Meta>, ranges: seq<int>, enabled: bool, n: nat,
                                               k: nat, id: JobID)
    returns (job: JobID)
    requires k < n <= |ranges| && Candidate(cfg, blocks, ranges[k], SplittingAt(ranges, k, enabled), id)
    ensures Planned(cfg, blocks, ranges, enabled, n, job) && (job == id || Clash(id, job))
    decreases n
  {
    if k < n - 1 {
      job := CandidateLeavesAJob(cfg, blocks, ranges, enabled, n - 1, k, id);
    } else if ClearOf(cfg, blocks, ranges, enabled, n - 1, id) {
      job := id;
    } else {
      job :| Planned(cfg, blocks, ranges, enabled, n - 1, job) && Clash(id, job);
    }
  }

  ghost predicate HasPlan(cfg: Config, blocks: set<Meta>, ranges: seq<int>, enabled: bool) {
    exists id :: Planned(cfg, blocks, ranges, enabled, |ranges|, id)
  }

  /** There is a planned job exactly when there is work left. */
  lemma PlanIsEmptyIffNoWork(cfg: Config, blocks: set<Meta>, ranges: seq<int>, enabled: bool)
    ensures HasPlan(cfg, blocks, ranges, enabled) <==> WorkLeft(blocks, ranges, enabled)
  {
    if WorkLeft(blocks, ranges, enabled) {
      var k, id := WorkIsCandidate(cfg, blocks, ranges, enabled);
      var job := CandidateLeavesAJob(cfg, blocks, ranges, enabled, |ranges|, k, id);
    } else if id :| Planned(cfg, blocks, ranges, enabled, |ranges|, id) {
      var k := PlannedIsCandidate(cfg, blocks, ranges, enabled, |ranges|, id);
      CandidateIsWork(cfg, blocks, ranges, enabled, k, id);
    }
  }
}
