/** What holds of every plan. */
module PlanTheorems {
  import opened Util
  import opened Block
  import opened Sorting
  import opened Sequences
  import opened Ranges
  import opened PlanSpec
  import opened Grouper
  import opened Planner
  import opened Plan

  /** The jobs of a plan do not conflict, so they can run concurrently. */
  lemma JobsDoNotConflict(cfg: Config, blocks: set<Meta>, ranges: seq<int>, highest: int, now: int, jobs: seq<Job>,
                          i: nat, j: nat)
    requires PositiveRanges(ranges) && IsRipePart(cfg, blocks, ranges, highest, now, jobs) && i < |jobs| &&
        j < |jobs| && i != j
    ensures !Conflicts(jobs[i], jobs[j])
  {
    assert jobs[i] in jobs && jobs[j] in jobs;
    var key := KeyOf(jobs[i].blocks[0]);
    if key == KeyOf(jobs[j].blocks[0]) {
      PlannedDoNotClash(cfg, MainGroup(blocks, key), ranges, ShardCountOf(cfg, key) > 0, |ranges|, jobs[i].id,
        jobs[j].id);
    }
  }

  /** No block is in two jobs. (That none is twice in one job is part of IsPlannedJob.) */
  lemma JobsShareNoBlock(cfg: Config, blocks: set<Meta>, ranges: seq<int>, highest: int, now: int, jobs: seq<Job>,
                         i: nat, j: nat)
    requires PositiveRanges(ranges) && IsRipePart(cfg, blocks, ranges, highest, now, jobs) && i < |jobs| &&
        j < |jobs| && i != j
    ensures Elements(jobs[i].blocks) !! Elements(jobs[j].blocks)
  {
    assert jobs[i] in jobs && jobs[j] in jobs;
    var key := KeyOf(jobs[i].blocks[0]);
    if key == KeyOf(jobs[j].blocks[0]) {
      PlannedAreDisjoint(cfg, MainGroup(blocks, key), ranges, ShardCountOf(cfg, key) > 0, |ranges|, jobs[i].id,
        jobs[j].id);
    }
  }

  /** Two plans for the same blocks have the same jobs with the same blocks: no iteration order over
      main groups, shards or split groups, and no order among blocks that start together, matters. */
  lemma PlansAgree(cfg: Config, blocks: set<Meta>, ranges: seq<int>, highest: int, now: int, a: seq<Job>, b: seq<Job>,
                   i: nat)
    returns (k: nat)
    requires IsRipePlan(cfg, blocks, ranges, highest, now, a) && IsRipePlan(cfg, blocks, ranges, highest, now, b) &&
        i < |a|
    ensures k < |b| && b[k].id == a[i].id && Elements(b[k].blocks) == Elements(a[i].blocks)
  {
    assert a[i] in a;
    var key, id := KeyOf(a[i].blocks[0]), a[i].id;
    assert RipeInGroup(cfg, blocks, key, id, highest, now);
    assert HasPlannedJob(b, key, id);
    k :| 0 <= k < |b| && b[k].id == id && b[k].blocks != [] && KeyOf(b[k].blocks[0]) == key;
    assert b[k] in b;
  }

  ghost predicate SomeWorkLeft(cfg: Config, blocks: set<Meta>, ranges: seq<int>) {
    exists key :: WorkLeft(MainGroup(blocks, key), ranges, ShardCountOf(cfg, key) > 0)
  }

  /** When the recency filter drops nothing, the plan is empty exactly when no work is left. */
  lemma EmptyPlanIffNoWork(cfg: Config, blocks: set<Meta>, ranges: seq<int>, highest: int, now: int, jobs: seq<Job>)
    requires IsRipePlan(cfg, blocks, ranges, highest, now, jobs)
    requires forall key, id :: InPlan(cfg, blocks, ranges, key, id) ==> RipeInGroup(cfg, blocks, key, id, highest, now)
    ensures jobs == [] <==> !SomeWorkLeft(cfg, blocks, ranges)
  {
    if jobs != [] {
      assert jobs[0] in jobs;
      var key := KeyOf(jobs[0].blocks[0]);
      assert HasPlan(cfg, MainGroup(blocks, key), ranges, ShardCountOf(cfg, key) > 0);
      PlanIsEmptyIffNoWork(cfg, MainGroup(blocks, key), ranges, ShardCountOf(cfg, key) > 0);
    }
    if SomeWorkLeft(cfg, blocks, ranges) {
      var key :| WorkLeft(MainGroup(blocks, key), ranges, ShardCountOf(cfg, key) > 0);
      PlanIsEmptyIffNoWork(cfg, MainGroup(blocks, key), ranges, ShardCountOf(cfg, key) > 0);
      var id :| Planned(cfg, MainGroup(blocks, key), ranges, ShardCountOf(cfg, key) > 0, |ranges|, id);
      assert InPlan(cfg, blocks, ranges, key, id);
      assert HasPlannedJob(jobs, key, id);
    }
  }

  // ---------- the planner's double check ----------

  predicate InLargestRange(start: int, end: int, m: Meta) {
    start <= m.minTime && m.maxTime <= end
  }

  /** SplitAndMergePlanner.Plan: passes the blocks through, or fails (None) when one lies outside the
      largest range of the first. */
  function PlannerPlan(ranges: seq<int>, metas: seq<Meta>): Option<seq<Meta>>
    requires |ranges| > 0 && PositiveRanges(ranges)
  {
    if metas == [] then Some(metas)
    else
      var largest := ranges[|ranges| - 1];
      var start := RangeStart(metas[0].minTime, largest);
      if forall m :: m in metas ==> InLargestRange(start, start + largest, m) then Some(metas) else None
  }

  /** Every range divides the last one. */
  predicate AllDivideLast(ranges: seq<int>)
    requires |ranges| > 0 && PositiveRanges(ranges)
  {
    forall k :: 0 <= k < |ranges| ==> ranges[|ranges| - 1] % ranges[k] == 0
  }

  /** The configuration check, that each range divides the next, is enough for it. */
  lemma CheckedRangesDivideLast(ranges: seq<int>)
    requires |ranges| > 0 && PositiveRanges(ranges) && EachDividesNext(ranges)
    ensures AllDivideLast(ranges)
  {
    forall k | 0 <= k < |ranges| ensures ranges[|ranges| - 1] % ranges[k] == 0 {
      EachDividesLast(ranges, k);
      AlignedDivides(ranges[k], ranges[|ranges| - 1]);
    }
  }

  /** When every range divides the last, the planner rejects no planned job, however its blocks are listed. */
  lemma PlannerAcceptsPlannedJobs(cfg: Config, blocks: set<Meta>, ranges: seq<int>, job: Job, metas: seq<Meta>)
    requires |ranges| > 0 && PositiveRanges(ranges) && AllDivideLast(ranges)
    requires IsPlannedJob(cfg, blocks, ranges, job) && multiset(metas) == multiset(job.blocks)
    ensures PlannerPlan(ranges, metas) == Some(metas)
  {
    PermutationKeepsDistinct(job.blocks, metas);
    assert job.blocks[0] in metas;
    var key, first, largest := KeyOf(job.blocks[0]), metas[0], ranges[|ranges| - 1];
    var k := PlannedIsCandidate(cfg, MainGroup(blocks, key), ranges, ShardCountOf(cfg, key) > 0, |ranges|, job.id);
    forall m | m in metas ensures Within(m, job.id.rangeStart, job.id.rangeEnd) {
      assert m in Elements(job.blocks);
    }
    assert first in metas;
    RangeStartIsUnique(job.id.rangeStart, first.minTime, ranges[k]);
    DividesAligns(ranges[k], largest);
    RangesNest(first.minTime, ranges[k], largest);
  }

  /** A block of the given time range, without labels. */
  function PlainBlock(ulid: ULID, start: int, end: int): Meta {
    Meta(ulid, start, end, 1, [ulid], 1, 0, map[])
  }

  /** Two blocks that fill a range sticking out of the largest one make a planned job, of whatever range and
      stage, that the planner rejects. */
  lemma PlannerRejectsMisaligned(cfg: Config, ranges: seq<int>, k: nat) returns (blocks: set<Meta>, job: Job)
    requires PositiveRanges(ranges) && k < |ranges| && ranges[|ranges| - 1] % ranges[k] != 0
    ensures IsPlannedJob(cfg, blocks, ranges, job) && PlannerPlan(ranges, job.blocks) == None
  {
    var tr, largest := ranges[k], ranges[|ranges| - 1];
    var start := RangeSticksOut(tr, largest);
    RangeStartIsRight(start, tr);
    var a, b := PlainBlock(1, start, start + tr), PlainBlock(2, start, start + tr);
    blocks := {a, b};
    job := PlannedOfTwo(cfg, ranges, k, start, a, b);
    assert job.blocks[0] in job.blocks;
    assert !InLargestRange(RangeStart(start, largest), RangeStart(start, largest) + largest, job.blocks[0]);
  }

  /** Some job is planned for two blocks that can be merged. */
  lemma PlannedOfTwo(cfg: Config, ranges: seq<int>, k: nat, start: int, a: Meta, b: Meta) returns (job: Job)
    requires PositiveRanges(ranges) && k < |ranges| && MergeableAt({a, b}, ranges[k], start, a, b)
    requires KeyOf(a) == KeyOf(b) && a.minTime == b.minTime
    ensures IsPlannedJob(cfg, {a, b}, ranges, job) && (job.blocks[0] == a || job.blocks[0] == b)
  {
    var blocks, key := {a, b}, KeyOf(a);
    assert MainGroup(blocks, key) == blocks;
    var enabled := ShardCountOf(cfg, key) > 0;
    PlanIsEmptyIffNoWork(cfg, blocks, ranges, enabled);
    var id :| Planned(cfg, blocks, ranges, enabled, |ranges|, id);
    var n := PlannedIsCandidate(cfg, blocks, ranges, enabled, |ranges|, id);
    job := TheJob(cfg, blocks, id, a, b);
  }

  /** The job of two blocks that start together. */
  lemma TheJob(cfg: Config, blocks: set<Meta>, id: JobID, a: Meta, b: Meta) returns (job: Job)
    requires blocks == {a, b} && a != b && a.minTime == b.minTime && Selected(cfg, id, blocks) != {}
    ensures job.userID == cfg.userID && job.id == id && job.blocks != [] &&
        Elements(job.blocks) == Selected(cfg, id, blocks)
    ensures NoRepeats(job.blocks) && SortedBy(job.blocks, StartsNoLater) && (job.blocks[0] == a || job.blocks[0] == b)
  {
    var m :| m in Selected(cfg, id, blocks);
    var list := if Selects(cfg, id, a) && Selects(cfg, id, b) then [a, b] else [m];
    job := Job(cfg.userID, id, list);
    assert Elements([a, b]) == {a, b} && Elements([m]) == {m};
  }

  /** Exactly when every range divides the last does the planner accept all planned jobs. */
  lemma PlannerAcceptsAllIff(cfg: Config, ranges: seq<int>)
    requires |ranges| > 0 && PositiveRanges(ranges)
    ensures AllDivideLast(ranges) <==>
            forall blocks, job :: IsPlannedJob(cfg, blocks, ranges, job) ==>
              PlannerPlan(ranges, job.blocks) == Some(job.blocks)
  {
    if AllDivideLast(ranges) {
      forall blocks, job | IsPlannedJob(cfg, blocks, ranges, job)
        ensures PlannerPlan(ranges, job.blocks) == Some(job.blocks)
      {
        PlannerAcceptsPlannedJobs(cfg, blocks, ranges, job, job.blocks);
      }
    } else {
      var k :| 0 <= k < |ranges| && ranges[|ranges| - 1] % ranges[k] != 0;
      var blocks, job := PlannerRejectsMisaligned(cfg, ranges, k);
    }
  }
}
