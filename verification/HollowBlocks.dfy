/** Blocks that contain nothing. A job of such blocks has no output, and it changes nothing if none of them is
    marked for being empty either; then the compaction loop need not end. Without work for such blocks it does. */
module HollowBlocks {
  import opened Block
  import Verdicts
  import opened Sorting
  import opened Sequences
  import opened PlanSpec
  import opened Grouper
  import opened Planner
  import opened Plan
  import opened PlanTheorems
  import opened Jobs
  import opened CompactionRun

  /** The live blocks open to compaction. */
  function Open(b: Bucket): set<Meta> {
    ValueSet(b.Live() - b.noCompact)
  }

  /** A block without content that will not go for being empty: it counts samples, or marking it may fail. */
  predicate Barren(v: Setup, m: Meta) {
    !v.solid(m) && (v.marksFail || m.numSamples > 0)
  }

  predicate BarrenJob(v: Setup, job: Job) {
    forall m :: m in job.blocks ==> Barren(v, m)
  }

  function BarrenOnes(v: Setup, blocks: set<Meta>): set<Meta> {
    set m | m in blocks && Barren(v, m)
  }

  /** The barren blocks open to compaction leave work, on their own. */
  ghost predicate BarrenWork(v: Setup, b: Bucket) {
    SomeWorkLeft(v.cfg, BarrenOnes(v, Open(b)), v.ranges)
  }

  /** A job that is ripe would be planned for the blocks, and all its blocks are barren. */
  ghost predicate BarrenRipe(v: Setup, blocks: set<Meta>, now: int) {
    exists highest, job :: IsHighest(blocks, highest) && IsRipeJob(v.cfg, blocks, v.ranges, highest, now, job) &&
                           BarrenJob(v, job)
  }

  /** Marks only came, and new blocks are solid. */
  ghost predicate Onward(v: Setup, b: Bucket, b': Bucket) {
    b.deleted <= b'.deleted && b.noCompact <= b'.noCompact &&
    forall id :: id in b'.blocks ==> (id in b.blocks && b'.blocks[id] == b.blocks[id]) || v.solid(b'.blocks[id])
  }

  lemma OnwardTwice(v: Setup, a: Bucket, b: Bucket, c: Bucket)
    requires Onward(v, a, b) && Onward(v, b, c)
    ensures Onward(v, a, c)
  {
  }

  lemma MarksGoOnward(v: Setup, b: Bucket, b': Bucket)
    requires b'.blocks == b.blocks && b.deleted <= b'.deleted && b.noCompact <= b'.noCompact
    ensures Onward(v, b, b')
  {
  }

  lemma {:induction false} WorkIsMonotone(cfg: Config, some: set<Meta>, all: set<Meta>, ranges: seq<int>)
    requires some <= all && SomeWorkLeft(cfg, some, ranges)
    ensures SomeWorkLeft(cfg, all, ranges)
  {
    var key :| WorkLeft(MainGroup(some, key), ranges, ShardCountOf(cfg, key) > 0);
    var few, many := MainGroup(some, key), MainGroup(all, key);
    if k, start, a, b :| 0 <= k < |ranges| && MergeableAt(few, ranges[k], start, a, b) {
      assert MergeableAt(many, ranges[k], start, a, b);
    } else {
      var start, m :| SplittableAt(few, ranges[0], start, m);
      assert SplittableAt(many, ranges[0], start, m);
    }
    assert WorkLeft(many, ranges, ShardCountOf(cfg, key) > 0);
  }

  /** What the compactor does makes no work for barren blocks. */
  lemma NoNewBarrenWork(v: Setup, b: Bucket, b': Bucket)
    requires Onward(v, b, b') && BarrenWork(v, b')
    ensures BarrenWork(v, b)
  {
    forall m | m in BarrenOnes(v, Open(b')) ensures m in BarrenOnes(v, Open(b)) {
      var id :| id in b'.Live() - b'.noCompact && b'.blocks[id] == m;
      assert (b.Live() - b.noCompact)[id] == m;
    }
    WorkIsMonotone(v.cfg, BarrenOnes(v, Open(b')), BarrenOnes(v, Open(b)), v.ranges);
  }

  /** A planned job of barren blocks is work for the barren blocks on their own. */
  lemma BarrenJobIsWork(v: Setup, blocks: set<Meta>, job: Job)
    requires IsPlannedJob(v.cfg, blocks, v.ranges, job) && BarrenJob(v, job)
    ensures SomeWorkLeft(v.cfg, BarrenOnes(v, blocks), v.ranges)
  {
    var key := KeyOf(job.blocks[0]);
    var group, barren := MainGroup(blocks, key), MainGroup(BarrenOnes(v, blocks), key);
    var enabled := ShardCountOf(v.cfg, key) > 0;
    var k := PlannedIsCandidate(v.cfg, group, v.ranges, enabled, |v.ranges|, job.id);
    assert Selected(v.cfg, job.id, group) <= barren by {
      forall m | m in Selected(v.cfg, job.id, group) ensures m in barren { assert m in Elements(job.blocks); }
    }
    if job.id.stage.Split? {
      var m :| m in Selected(v.cfg, job.id, group);
      assert SplittableAt(barren, v.ranges[0], job.id.rangeStart, m);
    } else {
      var a, b := TwoMembers(Selected(v.cfg, job.id, group));
      assert MergeableAt(barren, v.ranges[k], job.id.rangeStart, a, b);
    }
    assert WorkLeft(barren, v.ranges, enabled);
  }

  lemma BarrenRipeIsWork(v: Setup, b: Bucket, now: int)
    requires BarrenRipe(v, Open(b), now)
    ensures BarrenWork(v, b)
  {
    var highest, job :| IsHighest(Open(b), highest) && IsRipeJob(v.cfg, Open(b), v.ranges, highest, now, job) &&
                        BarrenJob(v, job);
    BarrenJobIsWork(v, Open(b), job);
  }

  // ---------- what barren work is ----------

  /** After marking these blocks as not to be compacted, the job is planned, and barren. */
  ghost predicate BarrenAfter(v: Setup, b: Bucket, ids: set<ULID>, job: Job) {
    IsPlannedJob(v.cfg, Open(b.(noCompact := b.noCompact + ids)), v.ranges, job) && BarrenJob(v, job)
  }

  /** The blocks in some order of their starts. */
  lemma SortedOrder(blocks: set<Meta>) returns (order: seq<Meta>)
    ensures Verdicts.IsOrderOf(order, blocks) && SortedBy(order, StartsNoLater)
  {
    var any := Verdicts.SomeOrder(blocks);
    order := SortBy(any, StartsNoLater);
    PermutationKeepsDistinct(any, order);
  }

  /** Where work is left, a job is planned. */
  lemma WorkMakesAJob(cfg: Config, blocks: set<Meta>, ranges: seq<int>) returns (job: Job)
    requires SomeWorkLeft(cfg, blocks, ranges)
    ensures IsPlannedJob(cfg, blocks, ranges, job)
  {
    var key :| WorkLeft(MainGroup(blocks, key), ranges, ShardCountOf(cfg, key) > 0);
    var group, enabled := MainGroup(blocks, key), ShardCountOf(cfg, key) > 0;
    PlanIsEmptyIffNoWork(cfg, group, ranges, enabled);
    var id :| Planned(cfg, group, ranges, enabled, |ranges|, id);
    var k := PlannedIsCandidate(cfg, group, ranges, enabled, |ranges|, id);
    var order := SortedOrder(Selected(cfg, id, group));
    SizeOfElements(order);
    job := Job(cfg.userID, id, order);
    assert order[0] in Elements(order);
  }

  /** Barren blocks leave work on their own exactly when marks as not to be compacted, on other blocks, can bring
      about a planned job that is barren. */
  lemma BarrenWorkIff(v: Setup, b: Bucket)
    ensures BarrenWork(v, b) <==> exists ids, job :: BarrenAfter(v, b, ids, job)
  {
    if BarrenWork(v, b) {
      var live := b.Live();
      var ids := set id | id in live && !Barren(v, live[id]);
      var b' := b.(noCompact := b.noCompact + ids);
      assert Open(b') == BarrenOnes(v, Open(b)) by {
        assert live - b'.noCompact == live - b.noCompact - ids;
        forall m | m in BarrenOnes(v, Open(b)) ensures m in Open(b') {
          var id :| id in live - b.noCompact && live[id] == m;
          assert (b'.Live() - b'.noCompact)[id] == m;
        }
        forall m | m in Open(b') ensures m in BarrenOnes(v, Open(b)) {
          var id :| id in b'.Live() - b'.noCompact && live[id] == m;
          assert (live - b.noCompact)[id] == m;
        }
      }
      var job := WorkMakesAJob(v.cfg, Open(b'), v.ranges);
      forall m | m in job.blocks ensures Barren(v, m) { assert m in Elements(job.blocks); }
      assert BarrenAfter(v, b, ids, job);
    }
    if ids, job :| BarrenAfter(v, b, ids, job) {
      var b' := b.(noCompact := b.noCompact + ids);
      BarrenJobIsWork(v, Open(b'), job);
      MarksGoOnward(v, b, b');
      NoNewBarrenWork(v, b, b');
    }
  }

  /** One of the jobs is barren. */
  ghost predicate HasBarren(v: Setup, plan: seq<Job>) {
    exists k :: 0 <= k < |plan| && BarrenJob(v, plan[k])
  }
}
