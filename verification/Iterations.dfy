/** The compaction loop over the whole protocol: iterations of sync, garbage collection, ripe jobs run in any
    interleaving, and an end. When such an iteration is followed by another although nothing was marked, and
    that the loop ends otherwise. */
module Iterations {
  import opened Util
  import opened Block
  import opened DedupSpec
  import opened DedupFilter
  import opened Sequences
  import opened Arithmetic
  import opened Ranges
  import opened PlanSpec
  import opened Grouper
  import opened Planner
  import opened Plan
  import opened PlanTheorems
  import opened Jobs
  import opened CompactionRun
  import opened Progress
  import opened HollowBlocks
  import opened BucketCompaction
  import opened Interleaving

  /** The states and steps of an iteration, the step that starts the jobs, and the time of planning. */
  datatype Iteration = Iteration(run: seq<State>, steps: seq<Step>, at: nat, highest: int, now: int)

  /** Sync leaves out all that must be a duplicate; the duplicates are marked; some of the ripe jobs planned on the
      blocks that are left are started; they run; the iteration ends. Marked blocks may be removed at any time. */
  ghost predicate IsIteration(w: World, v: Setup, it: Iteration) {
    TakesCalm(w, v, it.run, it.steps) && IsShaped(v, it)
  }

  ghost predicate IsShaped(v: Setup, it: Iteration) {
    var run, steps, at := it.run, it.steps, it.at;
    |run| == |steps| + 1 && 0 < at < |steps| - 1 && run[0].memory.Idle? &&
    steps[0].Sync? && (forall id :: MustGo(run[0].bucket.Live(), id) ==> id !in steps[0].kept) &&
    (forall i :: 0 < i < at ==> steps[i].MarkDuplicate? || steps[i].RemoveMarked?) &&
    steps[at].StartJobs? && StartsRipe(v, run[at].memory, steps[at].jobs, it.highest, it.now) &&
    (forall i :: at < i < |steps| - 1 ==> IsJobStep(steps[i])) && steps[|steps| - 1].EndIteration?
  }

  predicate IsJobStep(step: Step) {
    step.CompactJob? || step.UploadOutput? || step.MarkSource? || step.MarkEmptySource? || step.MarkNoCompact? ||
    step.DropJob? || step.RemoveMarked?
  }

  ghost predicate StartsRipe(v: Setup, mem: Memory, jobs: seq<Job>, highest: int, now: int) {
    mem.Synced? && IsHighest(ValueSet(mem.metas), highest) &&
    IsRipePart(v.cfg, ValueSet(mem.metas), v.ranges, highest, now, jobs)
  }

  function First(it: Iteration): State
    requires it.run != []
  {
    it.run[0]
  }

  function Last(it: Iteration): State
    requires it.run != []
  {
    it.run[|it.run| - 1]
  }

  /** The job came to its end without an error: it published all outputs and marked all sources, or without outputs
      marked the sources that have no samples, unless marking failed. */
  predicate Finished(v: Setup, b: Bucket, j: RunningJob) {
    j.outputs.Some? &&
    if j.outputs.value == {} then v.marksFail || EmptyIDs(j.job.blocks) <= b.deleted
    else AllUploaded(j) && BlockIDs(j.job.blocks) <= b.deleted
  }

  ghost predicate FinishedAt(v: Setup, t: State, k: nat) {
    t.memory.Running? && k < |t.memory.jobs| && Finished(v, t.bucket, t.memory.jobs[k])
  }

  /** The step handles an error of the job by marking a source of it as not to be compacted. */
  ghost predicate HandledAt(t: State, step: Step, k: nat) {
    t.memory.Running? && k < |t.memory.jobs| && step.MarkNoCompact? &&
    step.ids * BlockIDs(t.memory.jobs[k].job.blocks) != {}
  }

  /** A job finished, or an error of one was handled: the loop goes on after the iteration. */
  ghost predicate AsksAgain(v: Setup, it: Iteration) {
    |it.run| == |it.steps| + 1 &&
    exists i, k: nat :: it.at < i < |it.steps| && (FinishedAt(v, it.run[i], k) || HandledAt(it.run[i], it.steps[i], k))
  }

  // ---------- the two phases of an iteration ----------

  /** Between sync and start, with the blocks of b synced to kept. */
  ghost predicate Collecting(b: Bucket, kept: map<ULID, Meta>, t: State) {
    t.memory.Synced? && InSync(t.bucket, t.memory.duplicates, t.memory.metas) && t.bucket.noCompact == b.noCompact &&
    t.bucket.Live() == b.Live() - t.bucket.deleted &&
    b.Live().Keys - kept.Keys <= t.bucket.deleted + t.memory.duplicates
  }

  lemma SyncCollects(v: Setup, s: State, kept: map<ULID, Meta>, t: State)
    requires Inv(v, s) && Syncs(s, kept, t)
    ensures Collecting(s.bucket, kept, t)
  {
    KeptAreLive(s.bucket.Live(), kept);
    SyncedAreInSync(s.bucket, kept);
    assert s.bucket.Live() == s.bucket.Live() - s.bucket.deleted;
  }

  lemma StepCollects(w: World, v: Setup, b: Bucket, kept: map<ULID, Meta>, s: State, step: Step, t: State)
    requires Collecting(b, kept, s) && Next(w, v, s, step, t) && (step.MarkDuplicate? || step.RemoveMarked?)
    ensures Collecting(b, kept, t)
  {
    if step.MarkDuplicate? {
      CollectedAreInSync(s.bucket, s.memory.duplicates, s.memory.metas, step.id);
      assert t.bucket.Live() == s.bucket.Live() - {step.id};
    } else {
      assert t.bucket.Live() == s.bucket.Live();
    }
  }

  lemma {:induction false} CollectingUntil(w: World, v: Setup, it: Iteration, i: nat)
    requires Describes(w, v) && IsIteration(w, v, it) && Inv(v, First(it)) && 0 < i <= it.at
    ensures Collecting(First(it).bucket, it.steps[0].kept, it.run[i])
  {
    assert Next(w, v, it.run[i - 1], it.steps[i - 1], it.run[i - 1 + 1]);
    if i == 1 {
      SyncCollects(v, First(it), it.steps[0].kept, it.run[1]);
    } else {
      CollectingUntil(w, v, it, i - 1);
      StepCollects(w, v, First(it).bucket, it.steps[0].kept, it.run[i - 1], it.steps[i - 1], it.run[i]);
    }
  }

  /** The running jobs are among those started. */
  ghost predicate OnlyJobsOf(plan: seq<Job>, t: State) {
    t.memory.Running? && forall k :: 0 <= k < |t.memory.jobs| ==> t.memory.jobs[k].job in plan
  }

  lemma JobStepRuns(w: World, v: Setup, plan: seq<Job>, s: State, step: Step, t: State)
    requires OnlyJobsOf(plan, s) && Next(w, v, s, step, t) && IsJobStep(step)
    ensures OnlyJobsOf(plan, t)
  {
  }

  lemma {:induction false} RunningUntil(w: World, v: Setup, it: Iteration, i: nat)
    requires IsIteration(w, v, it) && it.at < i < |it.steps|
    ensures OnlyJobsOf(it.steps[it.at].jobs, it.run[i])
    decreases i
  {
    assert Next(w, v, it.run[i - 1], it.steps[i - 1], it.run[i - 1 + 1]);
    if i > it.at + 1 {
      RunningUntil(w, v, it, i - 1);
      JobStepRuns(w, v, it.steps[it.at].jobs, it.run[i - 1], it.steps[i - 1], it.run[i]);
    }
  }

  // ---------- an iteration that marks nothing ----------

  /** When no open block was marked until the start, the jobs are planned on the blocks open at the beginning. */
  lemma PlannedOnOpen(w: World, v: Setup, it: Iteration)
    requires Describes(w, v) && IsIteration(w, v, it) && Inv(v, First(it))
    requires !SomeMarked(First(it).bucket, it.run[it.at].bucket)
    ensures ValueSet(it.run[it.at].memory.metas) == Open(First(it).bucket)
  {
    var b, t := First(it).bucket, it.run[it.at];
    CollectingUntil(w, v, it, it.at);
    assert Next(w, v, it.run[it.at], it.steps[it.at], it.run[it.at + 1]);
    forall id | id in b.Live() && id !in b.noCompact ensures id !in t.bucket.deleted {
      assert !NewlyMarked(b, t.bucket, id);
    }
    assert t.memory.metas == b.Live() - b.noCompact;
  }

  /** A job that finished without one of its blocks being marked is barren. */
  lemma UnmarkedIsBarren(w: World, v: Setup, t: State, k: nat)
    requires Describes(w, v) && Inv(v, t) && FinishedAt(v, t, k) && t.memory.jobs[k].job.blocks != []
    requires forall m :: m in t.memory.jobs[k].job.blocks ==> m.ulid !in t.bucket.deleted
    ensures BarrenJob(v, t.memory.jobs[k].job)
  {
    var j := t.memory.jobs[k];
    assert JobOK(v, t.bucket, j);
    assert j.job.blocks[0] in j.job.blocks && j.job.blocks[0].ulid in BlockIDs(j.job.blocks);
    forall m | m in j.job.blocks ensures Barren(v, m) {
      NothingCovered(w, v, m);
      assert m.numSamples == 0 ==> m.ulid in EmptyIDs(j.job.blocks);
    }
  }

  lemma NothingCovered(w: World, v: Setup, m: Meta)
    requires Describes(w, v) && CoveredIn(v.has, m, {})
    ensures !v.solid(m)
  {
    assert forall p :: !Has(w, m, p);
    assert !Solid(w, m);
  }

  /** An iteration that is to be followed by another although no open block was marked had a barren job among the ripe
      jobs planned on the open blocks. */
  lemma UnmarkedIteration(w: World, v: Setup, it: Iteration)
    requires Describes(w, v) && IsIteration(w, v, it) && Inv(v, First(it)) && AsksAgain(v, it)
    requires !SomeMarked(First(it).bucket, Last(it).bucket)
    ensures BarrenRipe(v, Open(First(it).bucket), it.now)
  {
    var b := First(it).bucket;
    var i, k: nat :| it.at < i < |it.steps| && (FinishedAt(v, it.run[i], k) || HandledAt(it.run[i], it.steps[i], k));
    UnmarkedBefore(w, v, it, it.at);
    PlannedOnOpen(w, v, it);
    RunningUntil(w, v, it, i);
    var job := it.run[i].memory.jobs[k].job;
    assert IsRipeJob(v.cfg, Open(b), v.ranges, it.highest, it.now, job);
    SourcesUnmarked(w, v, it, i, job);
    if FinishedAt(v, it.run[i], k) {
      TakesKeepInv(w, v, it.run, it.steps, i);
      UnmarkedIsBarren(w, v, it.run[i], k);
    } else {
      var id :| id in it.steps[i].ids * BlockIDs(job.blocks);
      assert Next(w, v, it.run[i], it.steps[i], it.run[i + 1]);
      SourcesUnmarked(w, v, it, i + 1, job);
    }
  }

  lemma UnmarkedBefore(w: World, v: Setup, it: Iteration, i: nat)
    requires IsIteration(w, v, it) && i < |it.run| && !SomeMarked(First(it).bucket, Last(it).bucket)
    ensures !SomeMarked(First(it).bucket, it.run[i].bucket)
  {
    MarksStay(w, v, it.run, it.steps, i, |it.run| - 1);
    forall id ensures !NewlyMarked(First(it).bucket, it.run[i].bucket, id) {
      assert !NewlyMarked(First(it).bucket, Last(it).bucket, id);
    }
  }

  /** Then no block of a job planned on the open blocks is marked. */
  lemma SourcesUnmarked(w: World, v: Setup, it: Iteration, i: nat, job: Job)
    requires IsIteration(w, v, it) && Inv(v, First(it)) && i < |it.run|
    requires IsPlannedJob(v.cfg, Open(First(it).bucket), v.ranges, job)
    requires !SomeMarked(First(it).bucket, Last(it).bucket)
    ensures forall m :: m in job.blocks ==> m.ulid !in it.run[i].bucket.deleted && m.ulid !in it.run[i].bucket.noCompact
  {
    var b := First(it).bucket;
    UnmarkedBefore(w, v, it, i);
    PlannedIsViable(v.cfg, Open(b), v.ranges, job);
    forall m | m in job.blocks ensures m.ulid !in it.run[i].bucket.deleted && m.ulid !in it.run[i].bucket.noCompact {
      var id :| id in b.Live() - b.noCompact && b.blocks[id] == m;
      assert m.ulid == id && !NewlyMarked(b, it.run[i].bucket, id);
    }
  }

  // ---------- exactly when an iteration may change nothing ----------

  /** Some iteration at this time leads back to where it began and is to be followed by another. */
  ghost predicate MayRepeat(w: World, v: Setup, s: State, now: int) {
    exists it :: IsIteration(w, v, it) && First(it) == s && Last(it) == s && AsksAgain(v, it) && it.now == now
  }

  ghost predicate NothingMustGo(b: Bucket) {
    forall id :: !MustGo(b.Live(), id)
  }

  /** In an iteration without new marks nothing must have gone. */
  lemma NoMarksNoDuplicates(w: World, v: Setup, it: Iteration)
    requires Describes(w, v) && IsIteration(w, v, it) && Inv(v, First(it))
    requires Last(it).bucket.deleted == First(it).bucket.deleted
    ensures NothingMustGo(First(it).bucket)
  {
    var b, t := First(it).bucket, it.run[it.at];
    CollectingUntil(w, v, it, it.at);
    MarksStay(w, v, it.run, it.steps, it.at, |it.run| - 1);
    assert Next(w, v, t, it.steps[it.at], it.run[it.at + 1]);
    forall id ensures !MustGo(b.Live(), id) {
      if id in b.Live() { assert id !in t.bucket.deleted; }
    }
  }

  /** The iteration in which just the one job is started and comes back with nothing. */
  function Stuck(s: State, job: Job, highest: int, now: int): Iteration {
    var b := s.bucket;
    Iteration([s, State(b, Synced({}, b.Live() - b.noCompact)), State(b, Running([RunningJob(job, None, {})])),
               State(b, Running([RunningJob(job, Some({}), {})])), s],
              [Sync(b.Live()), StartJobs([job]), CompactJob(0, {}), EndIteration], 1, highest, now)
  }

  lemma StuckSyncs(w: World, v: Setup, s: State, job: Job, highest: int, now: int)
    requires s.memory.Idle? && IsRipeJob(v.cfg, Open(s.bucket), v.ranges, highest, now, job)
    ensures var it := Stuck(s, job, highest, now);
            Next(w, v, it.run[0], it.steps[0], it.run[1]) && Next(w, v, it.run[1], it.steps[1], it.run[2]) &&
            RipeStart(v, it.run[1].memory.metas, [job])
  {
    var it, b := Stuck(s, job, highest, now), s.bucket;
    assert b.Live().Keys - b.Live().Keys == {} && Syncs(s, b.Live(), it.run[1]);
    assert Started([job]) == [RunningJob(job, None, {})];
    assert IsRipePart(v.cfg, Open(b), v.ranges, highest, now, [job]);
    assert Starts(v, it.run[1], [job], it.run[2]);
  }

  lemma StuckComesBack(w: World, v: Setup, s: State, job: Job, highest: int, now: int)
    requires Describes(w, v) && s.memory.Idle? && HollowJob(v, job) && OneKind(v.cfg, job)
    ensures var it := Stuck(s, job, highest, now);
            Next(w, v, it.run[2], it.steps[2], it.run[3]) && Next(w, v, it.run[3], it.steps[3], it.run[4])
  {
    var it := Stuck(s, job, highest, now);
    var jobs := it.run[2].memory.jobs;
    assert jobs[0 := jobs[0].(outputs := Some({}))] == it.run[3].memory.jobs;
    EmptyResultIff(w, v, job);
    assert Compacts(w, v, it.run[2], 0, {}, it.run[3]);
  }

  lemma StuckIsCalm(w: World, v: Setup, s: State, job: Job, highest: int, now: int)
    requires Describes(w, v) && s.memory.Idle? && HollowJob(v, job)
    requires IsRipeJob(v.cfg, Open(s.bucket), v.ranges, highest, now, job)
    ensures TakesCalm(w, v, Stuck(s, job, highest, now).run, Stuck(s, job, highest, now).steps)
  {
    StuckSyncs(w, v, s, job, highest, now);
    PlannedIsOneKind(v.cfg, Open(s.bucket), v.ranges, job);
    StuckComesBack(w, v, s, job, highest, now);
    FourSteps(w, v, Stuck(s, job, highest, now));
    FourCalmSteps(w, v, Stuck(s, job, highest, now));
  }

  lemma FourSteps(w: World, v: Setup, it: Iteration)
    requires |it.run| == 5 && |it.steps| == 4
    requires Next(w, v, it.run[0], it.steps[0], it.run[1]) && Next(w, v, it.run[1], it.steps[1], it.run[2])
    requires Next(w, v, it.run[2], it.steps[2], it.run[3]) && Next(w, v, it.run[3], it.steps[3], it.run[4])
    ensures Takes(w, v, it.run, it.steps)
  {
  }

  lemma FourCalmSteps(w: World, v: Setup, it: Iteration)
    requires Takes(w, v, it.run, it.steps) && |it.steps| == 4
    requires IsCalm(v, it.run[0], it.steps[0]) && IsCalm(v, it.run[1], it.steps[1])
    requires IsCalm(v, it.run[2], it.steps[2]) && IsCalm(v, it.run[3], it.steps[3])
    ensures TakesCalm(w, v, it.run, it.steps)
  {
  }

  /** It is one, if the job is ripe and its blocks contain nothing. */
  lemma StuckIsIteration(w: World, v: Setup, s: State, job: Job, highest: int, now: int)
    requires Describes(w, v) && s.memory.Idle? && NothingMustGo(s.bucket) && HollowJob(v, job)
    requires IsHighest(Open(s.bucket), highest) && IsRipeJob(v.cfg, Open(s.bucket), v.ranges, highest, now, job)
    ensures IsIteration(w, v, Stuck(s, job, highest, now))
  {
    StuckIsCalm(w, v, s, job, highest, now);
    StuckIsShaped(v, s, job, highest, now);
  }

  lemma StuckIsShaped(v: Setup, s: State, job: Job, highest: int, now: int)
    requires s.memory.Idle? && NothingMustGo(s.bucket)
    requires IsHighest(Open(s.bucket), highest) && IsRipeJob(v.cfg, Open(s.bucket), v.ranges, highest, now, job)
    ensures IsShaped(v, Stuck(s, job, highest, now))
  {
    StuckStartsRipe(v, s, job, highest, now);
    FourAreShaped(v, Stuck(s, job, highest, now));
  }

  lemma StuckStartsRipe(v: Setup, s: State, job: Job, highest: int, now: int)
    requires IsHighest(Open(s.bucket), highest) && IsRipeJob(v.cfg, Open(s.bucket), v.ranges, highest, now, job)
    ensures StartsRipe(v, Stuck(s, job, highest, now).run[1].memory, [job], highest, now)
  {
    assert IsRipePart(v.cfg, Open(s.bucket), v.ranges, highest, now, [job]);
  }

  lemma FourAreShaped(v: Setup, it: Iteration)
    requires |it.run| == 5 && |it.steps| == 4 && it.at == 1 && it.run[0].memory.Idle? && it.steps[0].Sync?
    requires NothingMustGo(it.run[0].bucket) && it.steps[1].StartJobs?
    requires StartsRipe(v, it.run[1].memory, it.steps[1].jobs, it.highest, it.now)
    requires it.steps[2].CompactJob? && it.steps[3].EndIteration?
    ensures IsShaped(v, it)
  {
  }

  /** Exactly when nothing must go as a duplicate and a ripe job planned on the open blocks is barren, an iteration
      may lead back to where it began and be followed by another. */
  lemma MayRepeatIff(w: World, v: Setup, s: State, now: int)
    requires Describes(w, v) && Inv(v, s) && s.memory.Idle?
    ensures MayRepeat(w, v, s, now) <==> NothingMustGo(s.bucket) && BarrenRipe(v, Open(s.bucket), now)
  {
    if MayRepeat(w, v, s, now) {
      var it :| IsIteration(w, v, it) && First(it) == s && Last(it) == s && AsksAgain(v, it) && it.now == now;
      forall id ensures !NewlyMarked(s.bucket, s.bucket, id) {}
      UnmarkedIteration(w, v, it);
      NoMarksNoDuplicates(w, v, it);
    }
    if NothingMustGo(s.bucket) && BarrenRipe(v, Open(s.bucket), now) {
      var highest, job :| IsHighest(Open(s.bucket), highest) && BarrenJob(v, job) &&
                          IsRipeJob(v.cfg, Open(s.bucket), v.ranges, highest, now, job);
      StuckRepeats(w, v, s, job, highest, now);
    }
  }

  lemma StuckRepeats(w: World, v: Setup, s: State, job: Job, highest: int, now: int)
    requires Describes(w, v) && s.memory.Idle? && NothingMustGo(s.bucket) && BarrenJob(v, job)
    requires IsHighest(Open(s.bucket), highest) && IsRipeJob(v.cfg, Open(s.bucket), v.ranges, highest, now, job)
    ensures MayRepeat(w, v, s, now)
  {
    var it := Stuck(s, job, highest, now);
    assert HollowJob(v, job);
    StuckIsIteration(w, v, s, job, highest, now);
    assert EmptyIDs(job.blocks) == {} || v.marksFail by {
      forall m | m in job.blocks ensures m.numSamples > 0 || v.marksFail { assert Barren(v, m); }
    }
    assert FinishedAt(v, it.run[3], 0);
    assert AsksAgain(v, it);
    assert First(it) == s && Last(it) == s;
  }

  /** A world in which no source has any series. */
  ghost function SilentWorld(count: nat): World {
    World((src, hash) => false, (shard, hash) => false, src => count)
  }

  /** Two blocks that count samples and fill a range. */
  function TwoPlain(tr: int): State {
    State(Bucket(map[1 := PlainBlock(1, 0, tr), 2 := PlainBlock(2, 0, tr)], {}, {}), Idle)
  }

  lemma TwoPlainAreBarren(w: World, v: Setup, tr: int)
    requires Describes(w, v) && w == SilentWorld(EffectiveShardCount(v.cfg, []))
    ensures Inv(v, TwoPlain(tr)) && Barren(v, PlainBlock(1, 0, tr)) && Barren(v, PlainBlock(2, 0, tr))
  {
    PlainIsGood(w, v, PlainBlock(1, 0, tr));
    PlainIsGood(w, v, PlainBlock(2, 0, tr));
  }

  lemma TwoPlainRepeat(w: World, v: Setup, now: int)
    requires Describes(w, v) && |v.ranges| > 0 && PositiveRanges(v.ranges)
    requires Barren(v, PlainBlock(1, 0, v.ranges[0])) && Barren(v, PlainBlock(2, 0, v.ranges[0]))
    ensures MayRepeat(w, v, TwoPlain(v.ranges[0]), now)
  {
    var a, b, s := PlainBlock(1, 0, v.ranges[0]), PlainBlock(2, 0, v.ranges[0]), TwoPlain(v.ranges[0]);
    assert s.bucket.Live() == s.bucket.blocks;
    TwoAreOpen(a, b);
    NeitherMustGo(a, b);
    var job := TwoAreRipe(v.cfg, a, b, v.ranges, now);
    StuckRepeats(w, v, s, job, v.ranges[0], now);
  }

  /** An input for which the loop repeats itself, for every configuration: a world without series and two blocks that
      count samples. No mark fails. */
  lemma StuckInput(cfg: Config, ranges: seq<int>, now: int) returns (w: World, v: Setup, s: State)
    requires |ranges| > 0 && PositiveRanges(ranges)
    ensures Describes(w, v) && v.cfg == cfg && v.ranges == ranges && !v.marksFail && Inv(v, s) && s.memory.Idle?
    ensures MayRepeat(w, v, s, now)
  {
    w := SilentWorld(EffectiveShardCount(cfg, []));
    v, s := SetupOf(w, cfg, ranges, false), TwoPlain(ranges[0]);
    SetupDescribes(w, cfg, ranges, false);
    TwoPlainAreBarren(w, v, ranges[0]);
    TwoPlainRepeat(w, v, now);
  }

  lemma TwoAreOpen(a: Meta, b: Meta)
    ensures Open(Bucket(map[1 := a, 2 := b], {}, {})) == {a, b}
  {
    var blocks := map[1 := a, 2 := b];
    assert blocks - {} - {} == blocks && blocks[1] == a && blocks[2] == b;
  }

  /** Nothing is in a block of a world without series, and it is good. */
  lemma PlainIsGood(w: World, v: Setup, m: Meta)
    requires Describes(w, v) && (forall src, hash :: !w.truth(src, hash)) && m.labels == map[] && m.numSamples > 0
    requires forall src :: w.count(src) == EffectiveShardCount(v.cfg, [m])
    ensures v.good(m) && Barren(v, m)
  {
    assert Good(w, v.cfg, v.has, m);
    assert !Solid(w, m);
  }

  lemma NeitherMustGo(a: Meta, b: Meta)
    requires a.ulid == 1 && b.ulid == 2 && a.sources == [1] && b.sources == [2]
    ensures var metas := map[1 := a, 2 := b]; forall id :: !MustGo(metas, id)
  {
    var metas := map[1 := a, 2 := b];
    forall id | id in metas ensures !MustGo(metas, id) {
      var peers, m := Peers(metas, id), metas[id];
      forall c | c in peers ensures !Direct(peers, m, c) {
        assert c == a || c == b;
        if Successor(peers, m, c) { SourceKept(m, c, m.sources[0]); }
      }
      assert DirectSuccessors(peers, m) == {};
    }
  }

  /** Two new blocks that fill the smallest range make a ripe job. */
  lemma TwoAreRipe(cfg: Config, a: Meta, b: Meta, ranges: seq<int>, now: int) returns (job: Job)
    requires |ranges| > 0 && PositiveRanges(ranges) && a.ulid == 1 && b.ulid == 2 && a.labels == b.labels == map[]
    requires a.level == b.level == 1 && a.minTime == b.minTime == 0 && a.maxTime == b.maxTime == ranges[0]
    requires a.resolution == b.resolution
    ensures IsHighest({a, b}, ranges[0]) && IsRipeJob(cfg, {a, b}, ranges, ranges[0], now, job)
    ensures forall m :: m in job.blocks ==> m == a || m == b
  {
    assert Aligned(0, ranges[0]) by { assert 0 == Times(0, ranges[0]); }
    assert MergeableAt({a, b}, ranges[0], 0, a, b);
    job := PlannedOfTwo(cfg, ranges, 0, 0, a, b);
    PlannedIsViable(cfg, {a, b}, ranges, job);
    assert job.blocks[0] in Elements(job.blocks);
    assert MaxLevelIsOne(Elements(job.blocks));
  }

  // ---------- the loop ----------

  /** Iterations one after the other, each to be followed by another. */
  ghost predicate GoesOn(w: World, v: Setup, its: seq<Iteration>) {
    (forall k :: 0 <= k < |its| ==> IsIteration(w, v, its[k]) && AsksAgain(v, its[k])) &&
    forall k :: 0 < k < |its| ==> First(its[k]) == Last(its[k - 1])
  }

  /** The state after marking blocks as not to be compacted. */
  function Marked(s: State, ids: set<ULID>): State {
    s.(bucket := s.bucket.(noCompact := s.bucket.noCompact + ids))
  }

  lemma {:induction false} HighestExists(blocks: set<Meta>) returns (highest: int)
    ensures IsHighest(blocks, highest)
    decreases |blocks|
  {
    if blocks == {} {
      highest := MIN_INT64;
    } else {
      var m :| m in blocks;
      highest := HighestExists(blocks - {m});
      assert blocks == blocks - {m} + {m};
      if m.maxTime > highest { highest := m.maxTime; }
    }
  }

  lemma MarkedKeepsInv(w: World, v: Setup, s: State, ids: set<ULID>)
    requires Describes(w, v) && Inv(v, s)
    ensures Inv(v, Marked(s, ids))
  {
    StepKeepsInv(w, v, s, MarkNoCompact(ids), Marked(s, ids));
  }

  lemma BarrenJobGetsRipe(v: Setup, blocks: set<Meta>, job: Job) returns (now: int)
    requires IsPlannedJob(v.cfg, blocks, v.ranges, job) && BarrenJob(v, job)
    ensures BarrenRipe(v, blocks, now)
  {
    now := job.id.rangeEnd + job.id.rangeEnd - job.id.rangeStart;
    var highest := HighestExists(blocks);
    assert IsRipeJob(v.cfg, blocks, v.ranges, highest, now, job);
  }

  /** With the duplicates gone, barren work is exactly what lets the loop repeat itself, at some time and after some
      blocks were marked as not to be compacted. */
  lemma NeedNotEndIff(w: World, v: Setup, s: State)
    requires Describes(w, v) && Inv(v, s) && s.memory.Idle? && NothingMustGo(s.bucket)
    ensures BarrenWork(v, s.bucket) <==> exists ids, now :: MayRepeat(w, v, Marked(s, ids), now)
  {
    if BarrenWork(v, s.bucket) {
      BarrenWorkIff(v, s.bucket);
      var ids, job :| BarrenAfter(v, s.bucket, ids, job);
      var t := Marked(s, ids);
      var now := BarrenJobGetsRipe(v, Open(t.bucket), job);
      MarkedKeepsInv(w, v, s, ids);
      assert t.bucket.Live() == s.bucket.Live();
      MayRepeatIff(w, v, t, now);
    }
    if ids, now :| MayRepeat(w, v, Marked(s, ids), now) {
      var t := Marked(s, ids);
      MarkedKeepsInv(w, v, s, ids);
      MayRepeatIff(w, v, t, now);
      BarrenRipeIsWork(v, t.bucket, now);
      MarksGoOnward(v, s.bucket, t.bucket);
      NoNewBarrenWork(v, s.bucket, t.bucket);
    }
  }

  /** From a state to which an iteration may lead back, the loop may go on for any number of iterations. */
  lemma MayGoOn(w: World, v: Setup, s: State, now: int, n: nat) returns (its: seq<Iteration>)
    requires MayRepeat(w, v, s, now)
    ensures GoesOn(w, v, its) && |its| == n && forall k :: 0 <= k < n ==> First(its[k]) == s && Last(its[k]) == s
  {
    var it :| IsIteration(w, v, it) && First(it) == s && Last(it) == s && AsksAgain(v, it) && it.now == now;
    its := seq(n, k requires 0 <= k < n => it);
  }

  // ---------- the loop ends ----------

  ghost predicate SolidOutputs(v: Setup, j: RunningJob) {
    forall m :: m in OutputsOf(j) ==> v.solid(m)
  }

  ghost predicate AllSolid(v: Setup, jobs: seq<RunningJob>) {
    forall k :: 0 <= k < |jobs| ==> SolidOutputs(v, jobs[k])
  }

  /** Outputs are solid, and so are the blocks that came after b. */
  ghost predicate Forward(v: Setup, b: Bucket, t: State) {
    Onward(v, b, t.bucket) && AllSolid(v, JobsOf(t.memory))
  }

  lemma CompactGoesForward(w: World, v: Setup, b: Bucket, t: State, i: nat, outputs: set<Meta>, t': State)
    requires Describes(w, v) && Inv(v, t) && Forward(v, b, t) && Compacts(w, v, t, i, outputs, t')
    ensures Forward(v, b, t')
  {
    assert JobOK(v, t.bucket, t.memory.jobs[i]);
    forall m | m in outputs ensures v.solid(m) { OutputsAreSolid(w, v, t.memory.jobs[i].job, outputs, m); }
    SolidWith(v, t.memory.jobs, i, t'.memory.jobs[i]);
  }

  lemma SolidWith(v: Setup, jobs: seq<RunningJob>, i: nat, j: RunningJob)
    requires AllSolid(v, jobs) && i < |jobs| && SolidOutputs(v, j)
    ensures AllSolid(v, jobs[i := j])
  {
  }

  lemma SolidWithout(v: Setup, jobs: seq<RunningJob>, i: nat)
    requires AllSolid(v, jobs) && i < |jobs|
    ensures AllSolid(v, jobs[..i] + jobs[i + 1..])
  {
  }

  lemma UploadGoesForward(v: Setup, b: Bucket, t: State, i: nat, m: Meta, t': State)
    requires Forward(v, b, t) && Uploads(t, i, m, t')
    ensures Forward(v, b, t')
  {
    assert SolidOutputs(v, t.memory.jobs[i]) && m in OutputsOf(t.memory.jobs[i]);
    SolidWith(v, t.memory.jobs, i, t'.memory.jobs[i]);
  }

  lemma StepGoesForward(w: World, v: Setup, b: Bucket, t: State, step: Step, t': State)
    requires Describes(w, v) && Inv(v, t) && Forward(v, b, t) && Next(w, v, t, step, t') && !step.NewBlock?
    ensures Forward(v, b, t')
  {
    if step.CompactJob? {
      CompactGoesForward(w, v, b, t, step.i, step.outputs, t');
    } else if step.UploadOutput? {
      UploadGoesForward(v, b, t, step.i, step.m, t');
    } else if step.DropJob? {
      SolidWithout(v, t.memory.jobs, step.i);
    } else {
      MarksOnlyCome(w, v, t, step, t');
    }
  }

  lemma StepOfRunGoesForward(w: World, v: Setup, run: seq<State>, steps: seq<Step>, b: Bucket, k: nat)
    requires Describes(w, v) && TakesCalm(w, v, run, steps) && k < |steps| && Inv(v, run[k]) && Forward(v, b, run[k])
    ensures Forward(v, b, run[k + 1])
  {
    assert IsCalm(v, run[k], steps[k]);
    StepGoesForward(w, v, b, run[k], steps[k], run[k + 1]);
  }

  lemma {:induction false} RunGoesForward(w: World, v: Setup, run: seq<State>, steps: seq<Step>, k: nat)
    requires Describes(w, v) && TakesCalm(w, v, run, steps) && k < |run| && Inv(v, run[0]) && run[0].memory.Idle?
    ensures Forward(v, run[0].bucket, run[k])
  {
    if k > 0 {
      RunGoesForward(w, v, run, steps, k - 1);
      TakesKeepInv(w, v, run, steps, k - 1);
      StepOfRunGoesForward(w, v, run, steps, run[0].bucket, k - 1);
    }
  }

  lemma LastIsIdle(w: World, v: Setup, it: Iteration)
    requires Describes(w, v) && IsIteration(w, v, it) && Inv(v, First(it))
    ensures Inv(v, Last(it)) && Last(it).memory.Idle? && Onward(v, First(it).bucket, Last(it).bucket)
  {
    var n := |it.steps|;
    TakesKeepInv(w, v, it.run, it.steps, n);
    RunGoesForward(w, v, it.run, it.steps, n);
    assert Next(w, v, it.run[n - 1], it.steps[n - 1], it.run[n - 1 + 1]);
  }

  /** Without work for barren blocks, an iteration that is to be followed by another brings the measure down,
      and makes no such work. */
  lemma IterationEnds(w: World, v: Setup, it: Iteration)
    requires Describes(w, v) && PositiveRanges(v.ranges) && IsIteration(w, v, it) && Inv(v, First(it))
    requires AsksAgain(v, it) && !BarrenWork(v, First(it).bucket)
    ensures Inv(v, Last(it)) && Last(it).memory.Idle? && !BarrenWork(v, Last(it).bucket)
    ensures Measure(Last(it).bucket, MostShards(v.cfg)) < Measure(First(it).bucket, MostShards(v.cfg))
  {
    var n := |it.steps|;
    LastIsIdle(w, v, it);
    if BarrenWork(v, Last(it).bucket) { NoNewBarrenWork(v, First(it).bucket, Last(it).bucket); }
    if !SomeMarked(First(it).bucket, Last(it).bucket) {
      UnmarkedIteration(w, v, it);
      BarrenRipeIsWork(v, First(it).bucket, it.now);
    }
    CalmRunMakesProgress(w, v, it.run, it.steps, 0, n);
  }

  /** Without work for barren blocks the loop ends, however its jobs are interleaved: it goes on after at most as
      many iterations as the blocks weigh. */
  lemma {:induction false} LoopEnds(w: World, v: Setup, its: seq<Iteration>)
    requires Describes(w, v) && PositiveRanges(v.ranges) && GoesOn(w, v, its) && its != []
    requires Inv(v, First(its[0])) && !BarrenWork(v, First(its[0]).bucket)
    ensures |its| + Measure(Last(its[|its| - 1]).bucket, MostShards(v.cfg)) <=
            Measure(First(its[0]).bucket, MostShards(v.cfg))
    ensures Inv(v, Last(its[|its| - 1])) && !BarrenWork(v, Last(its[|its| - 1]).bucket)
    decreases |its|
  {
    var n := |its| - 1;
    if n > 0 {
      LoopEnds(w, v, its[..n]);
    }
    IterationEnds(w, v, its[n]);
  }
}
