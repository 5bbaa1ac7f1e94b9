/** The two orders in which the compactor runs its jobs. */
module JobOrder {
  import opened Block
  import opened Sorting
  import opened PlanSpec
  import opened Grouper
  import opened Plan
  import opened Jobs
  import opened Text

  /** What the orders look at. */
  datatype JobView = JobView(useSplitting: bool, minTime: int, maxTime: int, key: string)

  function Length(j: JobView): int {
    j.maxTime - j.minTime
  }

  /** Not after, by smallest range and oldest blocks: split jobs first, whatever their length. */
  predicate SmallestRangeOldestFirst(a: JobView, b: JobView) {
    if a.useSplitting && !b.useSplitting then true
    else if !a.useSplitting && b.useSplitting then false
    else if (!a.useSplitting || !b.useSplitting) && Length(a) != Length(b) then Length(a) < Length(b)
    else if a.minTime != b.minTime then a.minTime < b.minTime
    else LexLe(a.key, b.key)
  }

  /** Not after, by newest blocks. */
  predicate NewestFirst(a: JobView, b: JobView) {
    if a.maxTime != b.maxTime then b.maxTime < a.maxTime
    else if Length(a) != Length(b) then Length(a) < Length(b)
    else LexLe(a.key, b.key)
  }

  lemma SmallestRangeIsTotal()
    ensures TotalPreorder(SmallestRangeOldestFirst)
  {
    forall a, b ensures SmallestRangeOldestFirst(a, b) || SmallestRangeOldestFirst(b, a) { LexTotal(a.key, b.key); }
    forall a, b, c | SmallestRangeOldestFirst(a, b) && SmallestRangeOldestFirst(b, c)
      ensures SmallestRangeOldestFirst(a, c)
    {
      if LexLe(a.key, b.key) && LexLe(b.key, c.key) { LexTransitive(a.key, b.key, c.key); }
    }
  }

  lemma NewestIsTotal()
    ensures TotalPreorder(NewestFirst)
  {
    forall a, b ensures NewestFirst(a, b) || NewestFirst(b, a) { LexTotal(a.key, b.key); }
    forall a, b, c | NewestFirst(a, b) && NewestFirst(b, c) ensures NewestFirst(a, c) {
      if LexLe(a.key, b.key) && LexLe(b.key, c.key) { LexTransitive(a.key, b.key, c.key); }
    }
  }

  function ViewOf(c: Snapshot): JobView {
    JobView(c.useSplitting, FirstStart(c.metas), LastEnd(c.metas), c.key)
  }

  /** The two comparisons, on compaction jobs. */
  predicate SmallestRange(a: Snapshot, b: Snapshot) {
    SmallestRangeOldestFirst(ViewOf(a), ViewOf(b))
  }

  predicate Newest(a: Snapshot, b: Snapshot) {
    NewestFirst(ViewOf(a), ViewOf(b))
  }

  lemma OrdersAreTotal()
    ensures TotalPreorder(SmallestRange) && TotalPreorder(Newest)
  {
    SmallestRangeIsTotal();
    NewestIsTotal();
    forall a, b ensures SmallestRange(a, b) || SmallestRange(b, a) {
      assert SmallestRangeOldestFirst(ViewOf(a), ViewOf(b)) || SmallestRangeOldestFirst(ViewOf(b), ViewOf(a));
    }
    forall a, b ensures Newest(a, b) || Newest(b, a) {
      assert NewestFirst(ViewOf(a), ViewOf(b)) || NewestFirst(ViewOf(b), ViewOf(a));
    }
    forall a, b, c | SmallestRange(a, b) && SmallestRange(b, c) ensures SmallestRange(a, c) {
      assert SmallestRangeOldestFirst(ViewOf(a), ViewOf(b)) && SmallestRangeOldestFirst(ViewOf(b), ViewOf(c));
    }
    forall a, b, c | Newest(a, b) && Newest(b, c) ensures Newest(a, c) {
      assert NewestFirst(ViewOf(a), ViewOf(b)) && NewestFirst(ViewOf(b), ViewOf(c));
    }
  }

  /** sortJobsBySmallestRangeOldestBlocksFirst. */
  function SortSmallestRange(jobs: seq<Snapshot>): (sorted: seq<Snapshot>)
    ensures multiset(sorted) == multiset(jobs) && SortedBy(sorted, SmallestRange) && |sorted| == |jobs|
  {
    OrdersAreTotal();
    SortBy(jobs, SmallestRange)
  }

  /** sortJobsByNewestBlocksFirst. */
  function SortNewest(jobs: seq<Snapshot>): (sorted: seq<Snapshot>)
    ensures multiset(sorted) == multiset(jobs) && SortedBy(sorted, Newest) && |sorted| == |jobs|
  {
    OrdersAreTotal();
    SortBy(jobs, Newest)
  }

  ghost predicate DistinctKeys(jobs: seq<Snapshot>) {
    forall a, b :: a in jobs && b in jobs && a.key == b.key ==> a == b
  }

  /** The jobs are those Groups makes of a plan. */
  ghost predicate MadeOf(cfg: Config, blocks: set<Meta>, ranges: seq<int>, highest: int, now: int, plan: seq<Job>,
                         h: map<string, string> -> nat, jobs: seq<Snapshot>) {
    IsRipePlan(cfg, blocks, ranges, highest, now, plan) && |jobs| == |plan| &&
    forall i :: 0 <= i < |plan| ==> Runs(jobs[i], cfg, h, plan[i])
  }

  lemma KeysDiffer(cfg: Config, blocks: set<Meta>, ranges: seq<int>, highest: int, now: int, plan: seq<Job>,
                   h: map<string, string> -> nat, a: Snapshot, b: Snapshot, i: nat, j: nat)
    requires IsRipePlan(cfg, blocks, ranges, highest, now, plan) && Telling(blocks, h) && i < |plan| && j < |plan|
    requires Runs(a, cfg, h, plan[i]) && Runs(b, cfg, h, plan[j]) && i != j
    ensures a.key != b.key
  {
    GroupKeysAreDistinct(cfg, blocks, ranges, highest, now, plan, h, i, j);
  }

  lemma DistinctByIndex(jobs: seq<Snapshot>)
    requires forall i, j :: 0 <= i < |jobs| && 0 <= j < |jobs| && i != j ==> jobs[i].key != jobs[j].key
    ensures DistinctKeys(jobs)
  {
  }

  lemma GroupsHaveDistinctKeys(cfg: Config, blocks: set<Meta>, ranges: seq<int>, highest: int, now: int, plan: seq<Job>,
                               h: map<string, string> -> nat, jobs: seq<Snapshot>)
    requires MadeOf(cfg, blocks, ranges, highest, now, plan, h, jobs) && Telling(blocks, h)
    ensures DistinctKeys(jobs)
  {
    forall i, j | 0 <= i < |jobs| && 0 <= j < |jobs| && i != j ensures jobs[i].key != jobs[j].key {
      KeysDiffer(cfg, blocks, ranges, highest, now, plan, h, jobs[i], jobs[j], i, j);
    }
    DistinctByIndex(jobs);
  }

  lemma TiesShareTheKey(a: Snapshot, b: Snapshot)
    ensures SmallestRange(a, b) && SmallestRange(b, a) ==> a.key == b.key
    ensures Newest(a, b) && Newest(b, a) ==> a.key == b.key
  {
    if LexLe(a.key, b.key) && LexLe(b.key, a.key) { LexAntisymmetric(a.key, b.key); }
  }

  /** Two sorted arrangements of jobs with distinct keys are the same. */
  lemma OneArrangement(jobs: seq<Snapshot>, s: seq<Snapshot>, t: seq<Snapshot>, le: (Snapshot, Snapshot) -> bool)
    requires DistinctKeys(jobs) && multiset(s) == multiset(jobs) && multiset(t) == multiset(jobs)
    requires SortedBy(s, le) && SortedBy(t, le) && forall a, b :: le(a, b) && le(b, a) ==> a.key == b.key
    ensures s == t
  {
    forall a, b | a in s && b in s && le(a, b) && le(b, a) ensures a == b {
      assert a in multiset(s) && b in multiset(s) && a in multiset(jobs) && b in multiset(jobs);
    }
    SortIsUnique(s, t, le);
  }

  /** The jobs of Groups come out in one order by smallest range, whatever order they are given in. */
  lemma OneSmallestRangeOrder(cfg: Config, blocks: set<Meta>, ranges: seq<int>, highest: int, now: int, plan: seq<Job>,
                              h: map<string, string> -> nat, jobs: seq<Snapshot>, other: seq<Snapshot>)
    requires MadeOf(cfg, blocks, ranges, highest, now, plan, h, jobs) && Telling(blocks, h) &&
        multiset(jobs) == multiset(other)
    ensures SortSmallestRange(jobs) == SortSmallestRange(other)
  {
    assert DistinctKeys(jobs) by { GroupsHaveDistinctKeys(cfg, blocks, ranges, highest, now, plan, h, jobs); }
    OneOrder(jobs, other);
  }

  /** So they do by newest blocks. */
  lemma OneNewestOrder(cfg: Config, blocks: set<Meta>, ranges: seq<int>, highest: int, now: int, plan: seq<Job>,
                       h: map<string, string> -> nat, jobs: seq<Snapshot>, other: seq<Snapshot>)
    requires MadeOf(cfg, blocks, ranges, highest, now, plan, h, jobs) && Telling(blocks, h) &&
        multiset(jobs) == multiset(other)
    ensures SortNewest(jobs) == SortNewest(other)
  {
    assert DistinctKeys(jobs) by { GroupsHaveDistinctKeys(cfg, blocks, ranges, highest, now, plan, h, jobs); }
    OneOrder(jobs, other);
  }

  lemma OneOrder(jobs: seq<Snapshot>, other: seq<Snapshot>)
    requires DistinctKeys(jobs) && multiset(jobs) == multiset(other)
    ensures SortSmallestRange(jobs) == SortSmallestRange(other) && SortNewest(jobs) == SortNewest(other)
  {
    forall a, b ensures SmallestRange(a, b) && SmallestRange(b, a) ==> a.key == b.key { TiesShareTheKey(a, b); }
    forall a, b ensures Newest(a, b) && Newest(b, a) ==> a.key == b.key { TiesShareTheKey(a, b); }
    OneArrangement(jobs, SortSmallestRange(jobs), SortSmallestRange(other), SmallestRange);
    OneArrangement(jobs, SortNewest(jobs), SortNewest(other), Newest);
  }

  /** All split jobs come before all merge jobs. */
  lemma SplitJobsComeFirst(jobs: seq<Snapshot>, i: nat, j: nat)
    requires i < j < |jobs|
    ensures SortSmallestRange(jobs)[j].useSplitting ==> SortSmallestRange(jobs)[i].useSplitting
  {
    assert SmallestRange(SortSmallestRange(jobs)[i], SortSmallestRange(jobs)[j]);
  }
}
