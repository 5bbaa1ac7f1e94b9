/** The compactor of one tenant's bucket, as it runs: sync, garbage collection, planning and the jobs,
    until there is no work left. Every effect it has on the bucket is a step of the protocol of
    CompactionRun, so what holds of all runs of the protocol holds of it. Failures of the object
    storage and of the TSDB compactor may happen at every point, and are choices made by nobody. */
module BucketCompaction {
  import opened Util
  import opened Block
  import opened DedupFilter
  import opened Sorting
  import opened Sequences
  import opened PlanSpec
  import opened Grouper
  import opened Planner
  import opened Plan
  import opened PlanTheorems
  import opened Jobs
  import opened CompactionRun
  import opened CompactedBlocks
  import opened Progress
  import opened HollowBlocks

  // ---------- runs of the protocol ----------

  type Legal = seq<State> -> bool

  ghost predicate IsLegal(w: World, v: Setup, run: seq<State>) {
    run != [] && Describes(w, v) && IsRun(w, v, run) && Inv(v, run[0])
  }

  ghost function ContentOf(w: World): Content {
    (m, p) => Has(w, m, p)
  }

  ghost function SetupOf(w: World, cfg: Config, ranges: seq<int>, marksFail: bool): Setup {
    Setup(cfg, ranges, ContentOf(w), m => Good(w, cfg, ContentOf(w), m), m => Solid(w, m), marksFail)
  }

  lemma SetupDescribes(w: World, cfg: Config, ranges: seq<int>, marksFail: bool)
    ensures Describes(w, SetupOf(w, cfg, ranges, marksFail))
  {
  }

  /** legal tells the legal runs, as a value. */
  ghost predicate Judges(w: World, v: Setup, legal: Legal) {
    forall run {:trigger IsLegal(w, v, run)} :: legal(run) <==> IsLegal(w, v, run)
  }

  lemma Extend(w: World, v: Setup, legal: Legal, run: seq<State>, step: Step, t: State)
    requires Judges(w, v, legal) && run != [] && legal(run) && Next(w, v, run[|run| - 1], step, t)
    ensures legal(run + [t])
  {
    assert IsLegal(w, v, run);
    var longer := run + [t];
    forall k | 0 < k < |longer| ensures Follows(w, v, longer[k - 1], longer[k]) {
      assert k < |run| ==> Follows(w, v, run[k - 1], run[k]);
    }
    assert IsLegal(w, v, longer);
  }

  lemma LastIsKeyed(w: World, v: Setup, legal: Legal, run: seq<State>)
    requires Judges(w, v, legal) && run != [] && legal(run)
    ensures Keyed(run[|run| - 1].bucket.blocks)
  {
    assert IsLegal(w, v, run);
    RunKeepsInv(w, v, run, |run| - 1);
  }

  lemma LegalIsDescribed(w: World, v: Setup, legal: Legal, run: seq<State>)
    requires Judges(w, v, legal) && legal(run)
    ensures Describes(w, v)
  {
    assert IsLegal(w, v, run);
  }

  /** In a legal run nothing is lost from any state to any later one. */
  lemma LegalRunKeepsData(w: World, v: Setup, legal: Legal, run: seq<State>, i: nat, k: nat, p: Piece)
    requires Judges(w, v, legal) && legal(run) && i <= k < |run| && Stored(v.has, run[i].bucket, p)
    ensures Stored(v.has, run[k].bucket, p)
  {
    assert IsLegal(w, v, run);
    NothingLostBetween(w, v, run, i, k, p);
  }

  lemma NothingLostIn(w: World, v: Setup, legal: Legal, run: seq<State>)
    requires Judges(w, v, legal) && legal(run)
    ensures forall i, k, p :: 0 <= i <= k < |run| && Stored(v.has, run[i].bucket, p) ==> Stored(v.has, run[k].bucket, p)
  {
    forall i, k, p | 0 <= i <= k < |run| && Stored(v.has, run[i].bucket, p) ensures Stored(v.has, run[k].bucket, p) {
      LegalRunKeepsData(w, v, legal, run, i, k, p);
    }
  }

  /** All ULIDs in use are below next. */
  ghost predicate UsedBelow(b: Bucket, jobs: seq<RunningJob>, next: ULID) {
    (forall id :: id in b.blocks ==> id < next) && (forall id :: id in b.deleted ==> id < next) &&
    (forall k, m :: 0 <= k < |jobs| && m in OutputsOf(jobs[k]) ==> m.ulid < next)
  }

  function Without<T>(s: seq<T>, i: nat): seq<T>
    requires i < |s|
  {
    s[..i] + s[i + 1..]
  }

  function EmptyIDs(blocks: seq<Meta>): set<ULID> {
    set m | m in blocks && m.numSamples == 0 :: m.ulid
  }

  /** Nothing happened to blocks other than the given ones, except that new blocks may have come. */
  ghost predicate OnlyTouched(b: Bucket, b': Bucket, ids: set<ULID>, next: ULID) {
    (forall id :: id in b.blocks ==> id in b'.blocks && b'.blocks[id] == b.blocks[id]) &&
    (forall id :: id in b'.deleted ==> id in b.deleted || id in ids) &&
    (forall id :: id in b'.noCompact ==> id in b.noCompact || id in ids || id >= next)
  }

  /** none tells where no ripe job is left, as a value. */
  ghost predicate Tells(cfg: Config, ranges: seq<int>, none: (Bucket, int) -> bool) {
    forall b, t {:trigger NothingRipe(cfg, Open(b), ranges, t)} :: none(b, t) <==> NothingRipe(cfg, Open(b), ranges, t)
  }

  datatype JobError = Unhealthy(id: ULID) | TooLarge | Failed
  datatype JobResult = Done | Error(e: JobError)

  class BucketCompactor {
    const cfg: Config
    const ranges: seq<int>
    const labelHash: map<string, string> -> nat
    const sourceHash: ULID -> nat
    const skipUnhealthyBlocks: bool
    const marksFail: bool // whether writing the deletion mark of an empty block may fail
    const tsdb: Tsdb
    const filter: ShardAwareDeduplicateFilter

    var bucket: Bucket
    var metas: map<ULID, Meta>
    var nextULID: ULID

    ghost const world: World
    ghost const setup: Setup
    ghost const legal: Legal
    ghost var memory: Memory
    ghost var run: seq<State>

    ghost predicate Valid()
      reads this
    {
      Judges(world, setup, legal) && setup.cfg == cfg && setup.ranges == ranges && setup.marksFail == marksFail &&
      |ranges| > 0 && PositiveRanges(ranges) &&
      run != [] && run[|run| - 1] == State(bucket, memory) && legal(run) &&
      UsedBelow(bucket, JobsOf(memory), nextULID) &&
      Reliable(world, cfg, tsdb)
    }

    constructor (cfg: Config, ranges: seq<int>, labelHash: map<string, string> -> nat, sourceHash: ULID -> nat,
                 skipUnhealthyBlocks: bool, marksFail: bool, tsdb: Tsdb, bucket: Bucket, next: ULID, ghost w: World)
      requires |ranges| > 0 && PositiveRanges(ranges) && Keyed(bucket.blocks) && UsedBelow(bucket, [], next) &&
          Reliable(w, cfg, tsdb)
      requires forall id :: id in bucket.blocks ==> Good(w, cfg, ContentOf(w), bucket.blocks[id])
      ensures Valid() && fresh(filter) && this.bucket == bucket && memory == Idle && world == w
    {
      this.cfg, this.ranges, this.labelHash, this.sourceHash := cfg, ranges, labelHash, sourceHash;
      this.skipUnhealthyBlocks, this.marksFail, this.tsdb := skipUnhealthyBlocks, marksFail, tsdb;
      this.bucket, this.metas, this.nextULID := bucket, map[], next;
      this.filter := new ShardAwareDeduplicateFilter();
      world, setup, memory := w, SetupOf(w, cfg, ranges, marksFail), Idle;
      legal := run => IsLegal(w, SetupOf(w, cfg, ranges, marksFail), run);
      run := [State(bucket, Idle)];
      new;
      SetupDescribes(w, cfg, ranges, marksFail);
      forall id | id in bucket.blocks ensures setup.good(bucket.blocks[id]) {
        assert Good(w, cfg, ContentOf(w), bucket.blocks[id]);
      }
      assert IsLegal(world, setup, run);
    }

    /** One effect: a step of the protocol. */
    method Apply(after: Bucket, next: ULID, ghost step: Step, ghost mem: Memory)
      requires Valid() && Next(world, setup, State(bucket, memory), step, State(after, mem))
      requires UsedBelow(after, JobsOf(mem), next)
      modifies `bucket, `nextULID, `memory, `run
      ensures Valid() && bucket == after && nextULID == next && memory == mem && old(run) < run
    {
      Extend(world, setup, legal, run, step, State(after, mem));
      bucket, nextULID := after, next;
      memory, run := mem, run + [State(after, mem)];
    }

    // ---------- the effects of a job ----------

    /** The job at i is given up, or done. */
    method Drop(ghost i: nat)
      requires Valid() && memory.Running? && i < |memory.jobs|
      modifies `bucket, `nextULID, `memory, `run
      ensures Valid() && bucket == old(bucket) && nextULID == old(nextULID) && old(run) < run
      ensures memory == Running(Without(old(memory.jobs), i))
    {
      ghost var jobs := Without(memory.jobs, i);
      UsedBelowWithout(bucket, memory.jobs, i, nextULID);
      Apply(bucket, nextULID, DropJob(i), Running(jobs));
    }

    /** The compactor has produced the outputs. */
    method Record(outputs: seq<Meta>, next: ULID, ghost i: nat, ghost job: Job)
      requires Valid() && memory.Running? && i < |memory.jobs| && memory.jobs[i] == RunningJob(job, None, {})
      requires CompactorContract(world, job, ShardsFor(cfg, job), Elements(outputs))
      requires nextULID <= next && forall k :: 0 <= k < |outputs| ==> nextULID <= outputs[k].ulid < next
      requires forall j, k :: 0 <= j < k < |outputs| ==> outputs[j].ulid != outputs[k].ulid
      modifies `bucket, `nextULID, `memory, `run
      ensures Valid() && bucket == old(bucket) && nextULID == next && old(run) < run
      ensures memory == Running(old(memory.jobs)[i := RunningJob(job, Some(Elements(outputs)), {})])
    {
      FreshAbove(bucket, memory.jobs, nextULID, outputs, next, i, job);
      Apply(bucket, next, CompactJob(i, Elements(outputs)),
        Running(memory.jobs[i := RunningJob(job, Some(Elements(outputs)), {})]));
    }

    /** Uploads one output. */
    method Upload(m: Meta, ghost i: nat)
      requires Valid() && memory.Running? && i < |memory.jobs| && m in OutputsOf(memory.jobs[i]) &&
          m !in memory.jobs[i].uploaded
      modifies `bucket, `nextULID, `memory, `run
      ensures Valid() && nextULID == old(nextULID) && old(run) < run &&
          bucket == old(bucket).(blocks := old(bucket).blocks[m.ulid := m])
      ensures memory == Running(old(memory.jobs)[i :=
          old(memory.jobs[i]).(uploaded := old(memory.jobs[i]).uploaded + {m})])
    {
      ghost var after := memory.jobs[i := memory.jobs[i].(uploaded := memory.jobs[i].uploaded + {m})];
      SameOutputsBelow(bucket, memory.jobs, after, nextULID);
      Apply(bucket.(blocks := bucket.blocks[m.ulid := m]), nextULID, UploadOutput(i, m), Running(after));
    }

    /** Marks a block as not to be compacted. */
    method MarkForNoCompact(id: ULID)
      requires Valid()
      modifies `bucket, `nextULID, `memory, `run
      ensures Valid() && nextULID == old(nextULID) && memory == old(memory) && old(run) < run
      ensures bucket == old(bucket).(noCompact := old(bucket).noCompact + {id})
    {
      Apply(bucket.(noCompact := bucket.noCompact + {id}), nextULID, MarkNoCompact({id}), memory);
    }

    /** Uploads one output, and marks it as not to be compacted if it is oversized. */
    method UploadOne(m: Meta, ghost i: nat, ghost before: Bucket, ghost outputs: set<Meta>)
      requires Valid() && memory.Running? && i < |memory.jobs| && memory.jobs[i].outputs == Some(outputs)
      requires m in outputs && m !in memory.jobs[i].uploaded && Grown(before, bucket, outputs) &&
          m.ulid !in before.blocks
      modifies `bucket, `nextULID, `memory, `run
      ensures Valid() && nextULID == old(nextULID) && old(run) <= run && Grown(before, bucket, outputs)
      ensures memory == Running(old(memory.jobs)[i :=
          old(memory.jobs[i]).(uploaded := old(memory.jobs[i]).uploaded + {m})])
    {
      Upload(m, i);
      if * {
        MarkForNoCompact(m.ulid);
      }
    }

    /** Uploads all outputs, or fails at one. */
    method UploadAll(outputs: seq<Meta>, ghost i: nat, ghost job: Job) returns (ok: bool)
      requires Valid() && memory.Running? && i < |memory.jobs| &&
          memory.jobs[i] == RunningJob(job, Some(Elements(outputs)), {})
      requires NoRepeats(outputs) && forall m :: m in outputs ==> m.ulid !in bucket.blocks
      modifies `bucket, `nextULID, `memory, `run
      ensures Valid() && nextULID == old(nextULID) && old(run) <= run
      ensures memory.Running? && |memory.jobs| == |old(memory.jobs)| &&
          memory.jobs == old(memory.jobs)[i := memory.jobs[i]]
      ensures ok ==> memory.jobs[i] == RunningJob(job, Some(Elements(outputs)), Elements(outputs))
      ensures Grown(old(bucket), bucket, Elements(outputs))
    {
      ghost var jobs := memory.jobs;
      assert Elements(outputs[..0]) == {};
      for k := 0 to |outputs|
        invariant Valid() && nextULID == old(nextULID) && old(run) <= run
        invariant memory == Running(jobs[i := RunningJob(job, Some(Elements(outputs)), Elements(outputs[..k]))])
        invariant Grown(old(bucket), bucket, Elements(outputs))
      {
        if * {
          return false;
        }
        NotYet(outputs, k);
        UploadOne(outputs[k], i, old(bucket), Elements(outputs));
      }
      assert outputs[..|outputs|] == outputs;
      ok := true;
    }

    /** Marks a block for deletion, as a step that marks a source. */
    method MarkForDeletion(id: ULID, ghost step: Step)
      requires Valid() && memory.Running? &&
          Next(world, setup, State(bucket, memory), step, State(Mark(bucket, id), memory)) && id < nextULID
      modifies `bucket, `nextULID, `memory, `run
      ensures Valid() && nextULID == old(nextULID) && memory == old(memory) && old(run) < run &&
          bucket == Mark(old(bucket), id)
    {
      Apply(Mark(bucket, id), nextULID, step, memory);
    }

    /** Marks all sources for deletion, once all outputs are uploaded. */
    method MarkSources(blocks: seq<Meta>, ghost i: nat) returns (ok: bool)
      requires Valid() && memory.Running? && i < |memory.jobs| && AllUploaded(memory.jobs[i]) &&
          OutputsOf(memory.jobs[i]) != {}
      requires forall m :: m in blocks ==> m in memory.jobs[i].job.blocks && m.ulid < nextULID
      modifies `bucket, `nextULID, `memory, `run
      ensures Valid() && nextULID == old(nextULID) && memory == old(memory) && old(run) <= run
      ensures bucket == old(bucket).(deleted := bucket.deleted) &&
          old(bucket).deleted <= bucket.deleted <= old(bucket).deleted + BlockIDs(blocks)
      ensures ok ==> bucket.deleted == old(bucket).deleted + BlockIDs(blocks)
    {
      for k := 0 to |blocks|
        invariant Valid() && nextULID == old(nextULID) && memory == old(memory) && old(run) <= run
        invariant bucket == old(bucket).(deleted := old(bucket).deleted + BlockIDs(blocks[..k]))
      {
        if * {
          return false;
        }
        assert blocks[k] in blocks;
        MarkForDeletion(blocks[k].ulid, MarkSource(i, blocks[k]));
        NextBlockID(blocks, k);
      }
      assert blocks[..|blocks|] == blocks;
      ok := true;
    }

    /** Without outputs, marks the sources that have no samples. Failing to mark one is only logged. Where marks do
        not fail, all of them are marked. */
    method MarkEmptySources(blocks: seq<Meta>, ghost i: nat) returns (marked: set<ULID>)
      requires Valid() && memory.Running? && i < |memory.jobs| && memory.jobs[i].outputs == Some({})
      requires forall m :: m in blocks ==> m in memory.jobs[i].job.blocks && m.ulid < nextULID
      modifies `bucket, `nextULID, `memory, `run
      ensures Valid() && nextULID == old(nextULID) && memory == old(memory) && old(run) <= run
      ensures bucket == old(bucket).(deleted := old(bucket).deleted + marked)
      ensures marked <= EmptyIDs(blocks) && (!marksFail ==> marked == EmptyIDs(blocks))
    {
      marked := {};
      for k := 0 to |blocks|
        invariant Valid() && nextULID == old(nextULID) && memory == old(memory) && old(run) <= run
        invariant bucket == old(bucket).(deleted := old(bucket).deleted + marked)
        invariant marked <= EmptyIDs(blocks[..k]) && (!marksFail ==> marked == EmptyIDs(blocks[..k]))
      {
        NextEmptyID(blocks, k);
        if blocks[k].numSamples == 0 {
          var fails := false;
          if marksFail {
            fails := *;
          }
          if !fails {
            assert blocks[k] in blocks;
            MarkForDeletion(blocks[k].ulid, MarkEmptySource(i, blocks[k]));
            marked := marked + {blocks[k].ulid};
          }
        }
      }
      assert blocks[..|blocks|] == blocks;
    }

    // ---------- a job ----------

    /** Downloads and verifies the blocks. */
    method VerifyBlocks(toCompact: seq<Meta>) returns (error: Option<JobError>)
      ensures error.Some? && error.value.Unhealthy? ==> error.value.id in BlockIDs(toCompact)
      ensures error.Some? ==> !error.value.TooLarge?
    {
      for k := 0 to |toCompact| {
        if * {
          return Some(Failed);
        }
        if * {
          return Some(Unhealthy(toCompact[k].ulid));
        }
      }
      return None;
    }

    /** Runs a planned job. When it succeeds, it has changed nothing exactly when it is stuck, and then its
        blocks are barren. Otherwise there was progress. */
    method RunCompactionJob(c: Snapshot, ghost i: nat, ghost job: Job) returns (result: JobResult, stuck: bool)
      requires Valid() && memory.Running? && i < |memory.jobs| && memory.jobs[i] == RunningJob(job, None, {})
      requires Carries(c, cfg, job) && Viable(cfg, job) && Ready(bucket, job.blocks)
      modifies `bucket, `nextULID, `memory, `run
      ensures Valid() && old(nextULID) <= nextULID && old(run) <= run && memory == Running(Without(old(memory.jobs), i))
      ensures OnlyTouched(old(bucket), bucket, BlockIDs(job.blocks), old(nextULID))
      ensures Onward(setup, old(bucket), bucket)
      ensures result.Done? ==> (stuck <==> bucket == old(bucket)) && (stuck ==> BarrenJob(setup, job))
      ensures result.Done? && !stuck ==> Measure(bucket, MostShards(cfg)) < Measure(old(bucket), MostShards(cfg))
      ensures result.Error? && !result.e.Failed? ==> bucket == old(bucket)
      ensures result.Error? && result.e.Unhealthy? ==> result.e.id in BlockIDs(job.blocks)
    {
      stuck := false;
      SameMembers(c.metas, job.blocks);
      var planned := PlannerPlan(ranges, c.metas);
      if planned.None? {
        Drop(i);
        return Error(Failed), false;
      }
      var toCompact := planned.value;
      var error := VerifyBlocks(toCompact);
      if error.Some? {
        Drop(i);
        return Error(error.value), false;
      }
      var any: nat := *;
      var compacted := tsdb(c, nextULID, any);
      LibraryObeys(world, cfg, tsdb, c, job, nextULID, any);
      match compacted
      case IndexTooLarge =>
        Drop(i);
        return Error(TooLarge), false;
      case CompactionFailed =>
        Drop(i);
        return Error(Failed), false;
      case Compacted(blocks, next) =>
        result, stuck := Finish(c, blocks, next, i, job);
    }

    /** The second half of a job: its effects on the bucket. */
    method Finish(c: Snapshot, compacted: seq<Option<Meta>>, next: ULID, ghost i: nat, ghost job: Job)
      returns (result: JobResult, stuck: bool)
      requires Valid() && memory.Running? && i < |memory.jobs| && memory.jobs[i] == RunningJob(job, None, {})
      requires Carries(c, cfg, job) && Viable(cfg, job) && Ready(bucket, job.blocks)
      requires TsdbContract(world, job, c.splitNumShards, compacted) && NewULIDs(compacted, nextULID, next)
      modifies `bucket, `nextULID, `memory, `run
      ensures Valid() && old(nextULID) <= nextULID && old(run) <= run && memory == Running(Without(old(memory.jobs), i))
      ensures OnlyTouched(old(bucket), bucket, BlockIDs(job.blocks), old(nextULID))
      ensures Onward(setup, old(bucket), bucket)
      ensures result.Done? ==> (stuck <==> bucket == old(bucket)) && (stuck ==> BarrenJob(setup, job))
      ensures result.Done? && !stuck ==> Measure(bucket, MostShards(cfg)) < Measure(old(bucket), MostShards(cfg))
      ensures result.Error? ==> result.e.Failed?
    {
      var has := HasNonZeroULIDs(compacted);
      if !has {
        stuck := FinishEmpty(c, compacted, next, i, job);
        return Done, stuck;
      }
      var ok := FinishFull(c, compacted, next, i, job);
      return if ok then Done else Error(Failed), false;
    }

    /** The branch for a result with blocks. */
    method FinishFull(c: Snapshot, compacted: seq<Option<Meta>>, next: ULID, ghost i: nat, ghost job: Job)
        returns (ok: bool)
      requires Valid() && memory.Running? && i < |memory.jobs| && memory.jobs[i] == RunningJob(job, None, {})
      requires Carries(c, cfg, job) && Viable(cfg, job) && Ready(bucket, job.blocks)
      requires TsdbContract(world, job, c.splitNumShards, compacted) && NewULIDs(compacted, nextULID, next)
      requires exists k :: 0 <= k < |compacted| && compacted[k].Some?
      modifies `bucket, `nextULID, `memory, `run
      ensures Valid() && old(nextULID) <= nextULID && old(run) <= run && memory == Running(Without(old(memory.jobs), i))
      ensures OnlyTouched(old(bucket), bucket, BlockIDs(job.blocks), old(nextULID)) &&
          Onward(setup, old(bucket), bucket)
      ensures ok ==> Measure(bucket, MostShards(cfg)) < Measure(old(bucket), MostShards(cfg))
    {
      LegalIsDescribed(world, setup, legal, run);
      var outputs := PrepareOutputs(c, compacted, setup, job, world, nextULID, next);
      if * {
        Drop(i);
        return false;
      }
      Record(outputs, next, i, job);
      WithoutReplaced(old(memory.jobs), memory.jobs, i);
      ok := Publish(c, outputs, old(nextULID), i, job);
      if ok {
        ReplacedShrinks(cfg, job, Elements(outputs), old(bucket), bucket);
      }
    }

    /** Uploads all outputs, then marks all sources. */
    method Publish(c: Snapshot, outputs: seq<Meta>, ghost next: ULID, ghost i: nat, ghost job: Job) returns (ok: bool)
      requires Valid() && memory.Running? && i < |memory.jobs| &&
          memory.jobs[i] == RunningJob(job, Some(Elements(outputs)), {})
      requires multiset(c.metas) == multiset(job.blocks) && Ready(bucket, job.blocks) && outputs != []
      requires forall k :: 0 <= k < |outputs| ==> outputs[k].ulid >= next
      requires forall id :: id in bucket.blocks ==> id < next
      requires forall j, k :: 0 <= j < k < |outputs| ==> outputs[j].ulid != outputs[k].ulid
      requires forall m :: m in outputs ==> setup.solid(m)
      modifies `bucket, `nextULID, `memory, `run
      ensures Valid() && nextULID == old(nextULID) && old(run) <= run && memory == Running(Without(old(memory.jobs), i))
      ensures OnlyTouched(old(bucket), bucket, BlockIDs(job.blocks), next) && Onward(setup, old(bucket), bucket)
      ensures ok ==> Replaced(old(bucket), bucket, BlockIDs(job.blocks), Elements(outputs))
    {
      SameMembers(c.metas, job.blocks);
      ok := UploadAll(outputs, i, job);
      WithoutReplaced(old(memory.jobs), memory.jobs, i);
      GrownTouches(old(bucket), bucket, outputs, BlockIDs(job.blocks), next);
      GrownGoesOnward(setup, old(bucket), bucket, outputs);
      if ok {
        assert outputs[0] in Elements(outputs);
        ok := MarkSources(c.metas, i);
      }
      Drop(i);
    }

    /** The branch for a result without any block. */
    method FinishEmpty(c: Snapshot, compacted: seq<Option<Meta>>, next: ULID, ghost i: nat, ghost job: Job)
        returns (stuck: bool)
      requires Valid() && memory.Running? && i < |memory.jobs| && memory.jobs[i] == RunningJob(job, None, {})
      requires Carries(c, cfg, job) && Viable(cfg, job) && Ready(bucket, job.blocks)
      requires TsdbContract(world, job, c.splitNumShards, compacted) && nextULID <= next
      requires forall k :: 0 <= k < |compacted| ==> compacted[k].None?
      modifies `bucket, `nextULID, `memory, `run
      ensures Valid() && nextULID == next && old(run) <= run && memory == Running(Without(old(memory.jobs), i))
      ensures OnlyTouched(old(bucket), bucket, BlockIDs(job.blocks), old(nextULID)) &&
          Onward(setup, old(bucket), bucket)
      ensures (stuck <==> bucket == old(bucket)) && (stuck ==> BarrenJob(setup, job))
      ensures !stuck ==> Measure(bucket, MostShards(cfg)) < Measure(old(bucket), MostShards(cfg))
    {
      LegalIsDescribed(world, setup, legal, run);
      EmptyFulfils(world, job, c.splitNumShards, compacted);
      EmptyResultIff(world, setup, job);
      assert Elements<Meta>([]) == {};
      Record([], next, i, job);
      WithoutReplaced(old(memory.jobs), memory.jobs, i);
      stuck := MarkEmpty(c, old(nextULID), i, job);
      if stuck { HollowIsBarren(setup, job); }
    }

    /** Marks the sources without samples and gives up the job. */
    method MarkEmpty(c: Snapshot, ghost next: ULID, ghost i: nat, ghost job: Job) returns (stuck: bool)
      requires Valid() && memory.Running? && i < |memory.jobs| && memory.jobs[i] == RunningJob(job, Some({}), {})
      requires multiset(c.metas) == multiset(job.blocks) && Ready(bucket, job.blocks)
      modifies `bucket, `nextULID, `memory, `run
      ensures Valid() && nextULID == old(nextULID) && old(run) <= run && memory == Running(Without(old(memory.jobs), i))
      ensures OnlyTouched(old(bucket), bucket, BlockIDs(job.blocks), next) && Onward(setup, old(bucket), bucket)
      ensures (stuck <==> bucket == old(bucket)) && (stuck ==> marksFail || EmptyIDs(job.blocks) == {})
      ensures !stuck ==> Measure(bucket, MostShards(cfg)) < Measure(old(bucket), MostShards(cfg))
    {
      SameMembers(c.metas, job.blocks);
      var marked := MarkEmptySources(c.metas, i);
      Drop(i);
      stuck := marked == {};
      MarkedShrinks(setup, old(bucket), bucket, c.metas, marked, MostShards(cfg), next);
    }

    /** Marks blocks as not to be compacted after errors that will come back. An error is handled when
        all the marks it asks for were made, and then there was progress. */
    method HandleKnownErrors(c: Snapshot, e: JobError, ghost job: Job) returns (handled: bool)
      requires Valid() && multiset(c.metas) == multiset(job.blocks) && job.blocks != [] && Ready(bucket, job.blocks)
      requires e.Unhealthy? ==> e.id in BlockIDs(job.blocks)
      modifies `bucket, `nextULID, `memory, `run
      ensures Valid() && nextULID == old(nextULID) && memory == old(memory) && old(run) <= run
      ensures bucket == old(bucket).(noCompact := bucket.noCompact)
      ensures old(bucket).noCompact <= bucket.noCompact <= old(bucket).noCompact + BlockIDs(job.blocks)
      ensures handled ==>
          skipUnhealthyBlocks && !e.Failed? && Measure(bucket, MostShards(cfg)) < Measure(old(bucket), MostShards(cfg))
    {
      SameMembers(c.metas, job.blocks);
      if e.Failed? || !skipUnhealthyBlocks {
        return false;
      }
      if e.Unhealthy? {
        if * {
          return false;
        }
        MarkForNoCompact(e.id);
        ClosedShrinks(old(bucket), bucket, job.blocks, e.id, MostShards(cfg));
        return true;
      }
      handled := MarkAllForNoCompact(c.metas);
      if handled {
        assert job.blocks[0] in c.metas;
        ClosedShrinks(old(bucket), bucket, job.blocks, job.blocks[0].ulid, MostShards(cfg));
      }
    }

    /** The loop for permanent errors. It goes on after a mark that fails. */
    method MarkAllForNoCompact(blocks: seq<Meta>) returns (allMarked: bool)
      requires Valid()
      modifies `bucket, `nextULID, `memory, `run
      ensures Valid() && nextULID == old(nextULID) && memory == old(memory) && old(run) <= run
      ensures bucket == old(bucket).(noCompact := bucket.noCompact)
      ensures old(bucket).noCompact <= bucket.noCompact <= old(bucket).noCompact + BlockIDs(blocks)
      ensures allMarked ==> BlockIDs(blocks) <= bucket.noCompact
    {
      allMarked := true;
      for k := 0 to |blocks|
        invariant Valid() && nextULID == old(nextULID) && memory == old(memory) && old(run) <= run
        invariant bucket == old(bucket).(noCompact := bucket.noCompact)
        invariant old(bucket).noCompact <= bucket.noCompact <= old(bucket).noCompact + BlockIDs(blocks)
        invariant allMarked ==> forall j :: 0 <= j < k ==> blocks[j].ulid in bucket.noCompact
      {
        if * {
          allMarked := false;
        } else {
          assert blocks[k] in blocks;
          MarkForNoCompact(blocks[k].ulid);
        }
      }
    }

    // ---------- an iteration ----------

    /** Loads the blocks not marked for deletion, less the duplicates and those not to be compacted. */
    method SyncMetas() returns (ok: bool)
      requires Valid() && memory.Idle?
      modifies this, filter
      ensures Valid() && bucket == old(bucket) && nextULID == old(nextULID) && old(run) <= run
      ensures !ok ==> memory.Idle?
      ensures ok ==>
          memory == Synced(Elements(filter.duplicateIDs), metas) && NoRepeats(filter.duplicateIDs) &&
          InSync(bucket, Elements(filter.duplicateIDs), metas)
      ensures ok ==> forall id :: id in filter.duplicateIDs ==> id in bucket.Live()
    {
      if * {
        return false;
      }
      LastIsKeyed(world, setup, legal, run);
      var kept, cancelled := filter.Filter(sourceHash, bucket.Live());
      if cancelled {
        return false;
      }
      KeptAreLive(bucket.Live(), kept);
      SyncedAreInSync(bucket, kept);
      metas := kept - bucket.noCompact;
      assert Elements(filter.duplicateIDs) == bucket.Live().Keys - kept.Keys;
      Apply(bucket, nextULID, Sync(kept), Synced(bucket.Live().Keys - kept.Keys, metas));
      ok := true;
    }

    method CollectOne(id: ULID)
      requires Valid() && memory.Synced? && memory.metas == metas && id in memory.duplicates &&
          InSync(bucket, memory.duplicates, metas) && id < nextULID
      modifies `bucket, `nextULID, `memory, `run, `metas
      ensures Valid() && nextULID == old(nextULID) && old(run) < run && bucket == Mark(old(bucket), id)
      ensures memory == Synced(old(memory.duplicates) - {id}, metas) && InSync(bucket, memory.duplicates, metas)
    {
      CollectedAreInSync(bucket, memory.duplicates, metas, id);
      Apply(Mark(bucket, id), nextULID, MarkDuplicate(id), Synced(memory.duplicates - {id}, metas - {id}));
      metas := metas - {id};
    }

    /** Marks the duplicates for deletion and forgets them. */
    method GarbageCollect() returns (ok: bool)
      requires Valid() && memory == Synced(Elements(filter.duplicateIDs), metas) && NoRepeats(filter.duplicateIDs) &&
          InSync(bucket, Elements(filter.duplicateIDs), metas)
      requires forall id :: id in filter.duplicateIDs ==> id in bucket.Live()
      modifies `bucket, `nextULID, `memory, `run, `metas
      ensures Valid() && nextULID == old(nextULID) && old(run) <= run && memory.Synced?
      ensures bucket == old(bucket).(deleted := bucket.deleted) && old(bucket).deleted <= bucket.deleted
      ensures ok ==>
          memory == Synced({}, metas) && InSync(bucket, {}, metas) &&
          bucket.deleted == old(bucket).deleted + Elements(filter.duplicateIDs)
    {
      var ids := filter.duplicateIDs;
      assert ids[0..] == ids;
      for k := 0 to |ids|
        invariant Valid() && nextULID == old(nextULID) && old(run) <= run
        invariant memory == Synced(Elements(ids[k..]), metas) && InSync(bucket, Elements(ids[k..]), metas)
        invariant bucket == old(bucket).(deleted := old(bucket).deleted + Elements(ids[..k]))
      {
        if * {
          return false;
        }
        NextDuplicate(ids, k);
        assert ids[k] in ids;
        CollectOne(ids[k]);
      }
      assert ids[..|ids|] == ids;
      ok := true;
    }

    /** One turn of a worker: the job is run, and a known error handled. */
    method RunOne(c: Snapshot, ghost i: nat, ghost job: Job) returns (ok: bool, stuck: bool)
      requires Valid() && memory.Running? && i < |memory.jobs| && memory.jobs[i] == RunningJob(job, None, {})
      requires Carries(c, cfg, job) && Viable(cfg, job) && Ready(bucket, job.blocks)
      modifies `bucket, `nextULID, `memory, `run
      ensures Valid() && old(run) <= run && memory == Running(Without(old(memory.jobs), i))
      ensures OnlyTouched(old(bucket), bucket, BlockIDs(job.blocks), old(nextULID)) &&
          Onward(setup, old(bucket), bucket)
      ensures ok && stuck ==> bucket == old(bucket) && BarrenJob(setup, job)
      ensures ok && !stuck ==> Measure(bucket, MostShards(cfg)) < Measure(old(bucket), MostShards(cfg))
    {
      var result;
      result, stuck := RunCompactionJob(c, i, job);
      if result.Done? {
        return true, stuck;
      }
      stuck := false;
      if result.e.Failed? {
        return false, false;
      }
      ok := HandleKnownErrors(c, result.e, job);
    }

    /** Runs the jobs, in any order. Some may turn out not to be owned, or not to have waited long enough,
        and the time for compactions may run out. */
    method RunJobs(jobs: seq<Snapshot>, ghost planned: seq<Job>)
        returns (again: bool, ok: bool, stuck: bool, complete: bool)
      requires Valid() && memory == Running(Started(planned)) && AllCarry(jobs, planned, cfg) &&
          AllViable(cfg, planned, bucket)
      modifies `bucket, `nextULID, `memory, `run
      ensures Valid() && old(run) <= run && memory.Running?
      ensures ok ==> Measure(bucket, MostShards(cfg)) <= Measure(old(bucket), MostShards(cfg))
      ensures ok && again && !stuck ==> Measure(bucket, MostShards(cfg)) < Measure(old(bucket), MostShards(cfg))
      ensures ok && complete && !again ==> planned == [] && bucket == old(bucket)
      ensures Onward(setup, old(bucket), bucket) && (ok && stuck ==> HasBarren(setup, planned))
    {
      var rest := jobs;
      again, ok, stuck, complete := false, true, false, true;
      ghost var plan := planned;
      while rest != []
        invariant Valid() && old(run) <= run && memory == Running(Started(plan)) && AllCarry(rest, plan, cfg) &&
            AllViable(cfg, plan, bucket)
        invariant Measure(bucket, MostShards(cfg)) <= Measure(old(bucket), MostShards(cfg))
        invariant again && !stuck ==> Measure(bucket, MostShards(cfg)) < Measure(old(bucket), MostShards(cfg))
        invariant complete && !again ==> plan == planned && bucket == old(bucket)
        invariant Onward(setup, old(bucket), bucket) && (stuck || HasBarren(setup, plan) ==> HasBarren(setup, planned))
        decreases |rest|
      {
        if * {
          return false, true, stuck, false; // max compaction time reached
        }
        var k: nat :| k < |rest|;
        CarryWithout(rest, plan, cfg, k);
        var ran, idle;
        FewerAreBarren(setup, plan, k);
        ghost var before := bucket;
        ran, ok, idle := Turn(rest[k], k, plan);
        OnwardTwice(setup, old(bucket), before, bucket);
        if !ok {
          return false, false, stuck, false;
        }
        again, stuck, complete := again || ran, stuck || idle, complete && ran;
        rest, plan := Without(rest, k), Without(plan, k);
      }
    }

    /** One of the remaining jobs is run, or not; the others stay ready. */
    method Turn(c: Snapshot, ghost k: nat, ghost plan: seq<Job>) returns (ran: bool, ok: bool, stuck: bool)
      requires Valid() && memory == Running(Started(plan)) && k < |plan| && Carries(c, cfg, plan[k]) &&
          AllViable(cfg, plan, bucket)
      modifies `bucket, `nextULID, `memory, `run
      ensures Valid() && old(run) <= run && memory == Running(Started(Without(plan, k))) &&
          AllViable(cfg, Without(plan, k), bucket)
      ensures Onward(setup, old(bucket), bucket) && (ok && stuck ==> BarrenJob(setup, plan[k]))
      ensures ok && (stuck || !ran) ==> bucket == old(bucket)
      ensures ok && ran && !stuck ==> Measure(bucket, MostShards(cfg)) < Measure(old(bucket), MostShards(cfg))
    {
      ViableWithout(cfg, plan, bucket, k);
      StartedWithout(plan, k);
      if * {
        Drop(k);
        return false, true, false;
      }
      ran := true;
      ok, stuck := RunOne(c, k, plan[k]);
      ViableAfter(cfg, Without(plan, k), old(bucket), bucket, BlockIDs(plan[k].blocks), old(nextULID));
    }

    /** One iteration: sync, garbage collection, planning, and the jobs. When it is to be followed by
        another one, there was progress, unless a job was stuck. When it is complete and the last one, no ripe
        job could be planned for what is in the bucket. */
    method CompactOnce(now: int) returns (again: bool, ok: bool, stuck: bool, complete: bool)
      requires Valid() && memory.Idle?
      modifies this, filter
      ensures Valid() && old(run) <= run && memory.Idle?
      ensures ok ==> Measure(bucket, MostShards(cfg)) <= Measure(old(bucket), MostShards(cfg))
      ensures ok && again && !stuck ==> Measure(bucket, MostShards(cfg)) < Measure(old(bucket), MostShards(cfg))
      ensures ok && complete && !again ==> NothingRipe(cfg, Open(bucket), ranges, now)
      ensures Onward(setup, old(bucket), bucket) && (ok && stuck ==> BarrenWork(setup, old(bucket)))
      ensures ok && again && bucket == old(bucket) ==> BarrenRipe(setup, Open(bucket), now)
    {
      again, stuck, complete := false, false, false;
      ok := SyncMetas();
      if !ok {
        return;
      }
      ok := GarbageCollect();
      MarkingShrinks(old(bucket), bucket, MostShards(cfg));
      ghost var collected := bucket;
      MarksGoOnward(setup, old(bucket), collected);
      if ok {
        again, ok, stuck, complete := PlanAndRun(now);
        OnwardTwice(setup, old(bucket), collected, bucket);
        if ok { StuckIsBarren(setup, old(bucket), collected, bucket, MostShards(cfg), now, again, stuck); }
      }
      Apply(bucket, nextULID, EndIteration, Idle);
    }

    /** The part of an iteration after garbage collection. */
    method PlanAndRun(now: int) returns (again: bool, ok: bool, stuck: bool, complete: bool)
      requires Valid() && memory == Synced({}, metas) && InSync(bucket, {}, metas)
      modifies `bucket, `nextULID, `memory, `run
      ensures Valid() && old(run) <= run
      ensures ok ==> Measure(bucket, MostShards(cfg)) <= Measure(old(bucket), MostShards(cfg))
      ensures ok && again && !stuck ==> Measure(bucket, MostShards(cfg)) < Measure(old(bucket), MostShards(cfg))
      ensures ok && complete && !again ==> NothingRipe(cfg, Open(bucket), ranges, now)
      ensures Onward(setup, old(bucket), bucket) && (ok && stuck ==> BarrenRipe(setup, Open(old(bucket)), now))
    {
      assert metas == bucket.Live() - bucket.noCompact;
      var jobs, planned, highest := PlanJobs(cfg, metas, ranges, now, labelHash, bucket);
      if jobs.None? {
        return false, false, false, false;
      }
      Start(planned);
      again, ok, stuck, complete := RunJobs(jobs.value, planned);
      if ok && stuck {
        ghost var k :| 0 <= k < |planned| && BarrenJob(setup, planned[k]);
        assert IsRipeJob(cfg, Open(old(bucket)), ranges, highest, now, planned[k]) by { assert planned[k] in planned; }
      }
    }

    method Start(ghost planned: seq<Job>)
      requires Valid() && memory.Synced? && memory.duplicates == {}
      requires forall j :: j in planned ==> IsPlannedJob(cfg, ValueSet(memory.metas), ranges, j)
      modifies `bucket, `nextULID, `memory, `run
      ensures Valid() && bucket == old(bucket) && nextULID == old(nextULID) && old(run) <= run &&
          memory == Running(Started(planned))
    {
      Apply(bucket, nextULID, StartJobs(planned), Running(Started(planned)));
    }

    /** Iterates until no work is left, which takes at most as many iterations as the blocks to be compacted
        weigh, and one. It ends if the barren blocks leave no work on their own; with such work it need
        not, see Iterations. At no point is anything lost. If the last iteration skipped no job, no ripe job is
        left. */
    method Compact(now: nat -> int) returns (ok: bool, iterations: nat, complete: bool)
      requires Valid() && memory.Idle? && !BarrenWork(setup, bucket)
      modifies this, filter
      ensures Valid() && old(run) <= run && memory.Idle?
      ensures iterations <= Measure(old(bucket), MostShards(cfg)) + 1
      ensures ok && complete ==> iterations > 0 && NothingRipe(cfg, Open(bucket), ranges, now(iterations - 1))
      ensures forall i, k, p :: |old(run)| - 1 <= i <= k < |run| && Stored(setup.has, run[i].bucket, p) ==>
          Stored(setup.has, run[k].bucket, p)
    {
      ghost var none := (b: Bucket, t: int) => NothingRipe(cfg, Open(b), ranges, t);
      ok, iterations, complete := Iterate(now, none);
      NothingLostIn(world, setup, legal, run);
    }

    /** The loop of Compact. */
    method Iterate(now: nat -> int, ghost none: (Bucket, int) -> bool)
        returns (ok: bool, iterations: nat, complete: bool)
      requires Valid() && memory.Idle? && !BarrenWork(setup, bucket)
      requires Tells(cfg, ranges, none)
      modifies this, filter
      ensures Valid() && old(run) <= run && memory.Idle?
      ensures iterations <= Measure(old(bucket), MostShards(cfg)) + 1
      ensures ok && complete ==> iterations > 0 && none(bucket, now(iterations - 1))
    {
      iterations, ok, complete := 0, true, false;
      var again, time := true, now(0);
      ghost var left: nat, barren, stuck := Measure(bucket, MostShards(cfg)), BarrenWork(setup, bucket), false;
      while again
        invariant Valid() && old(run) <= run && memory.Idle? && Onward(setup, old(bucket), bucket)
        invariant again ==> ok && iterations + left <= Measure(old(bucket), MostShards(cfg))
        invariant iterations <= Measure(old(bucket), MostShards(cfg)) + 1 && left == Measure(bucket, MostShards(cfg))
        invariant iterations > 0 ==> time == now(iterations - 1)
        invariant ok && complete && !again ==> iterations > 0 && none(bucket, time)
        decreases again, left
      {
        time := now(iterations);
        again, ok, complete, stuck, left := Again(time, none, old(bucket), barren, left);
        iterations := iterations + 1;
        if !ok {
          return;
        }
      }
    }

    /** An iteration of a loop that began with the bucket first. */
    method Again(now: int, ghost none: (Bucket, int) -> bool, ghost first: Bucket, ghost barren: bool,
                 ghost weight: nat)
        returns (again: bool, ok: bool, complete: bool, stuck: bool, ghost left: nat)
      requires Valid() && memory.Idle? && Onward(setup, first, bucket) && weight == Measure(bucket, MostShards(cfg))
      requires barren == BarrenWork(setup, first) && Tells(cfg, ranges, none)
      modifies this, filter
      ensures Valid() && old(run) <= run && memory.Idle? && Onward(setup, first, bucket)
      ensures left == Measure(bucket, MostShards(cfg))
      ensures (ok ==> left <= weight) && (ok && again && !stuck ==> left < weight)
      ensures ok && complete && !again ==> none(bucket, now)
      ensures ok && stuck ==> barren
    {
      again, ok, stuck, complete := CompactOnce(now);
      OnwardTwice(setup, first, old(bucket), bucket);
      if ok && stuck { NoNewBarrenWork(setup, first, old(bucket)); }
      left := Measure(bucket, MostShards(cfg));
    }

    /** Compact with work for barren blocks: as long as it is let run. Of the iterations, those in which
        no job was stuck are at most as many as the blocks weigh, and one. */
    method CompactWhileLet(now: nat -> int, patience: nat)
        returns (ok: bool, iterations: nat, complete: bool, stuckIterations: nat)
      requires Valid() && memory.Idle?
      modifies this, filter
      ensures Valid() && old(run) <= run && memory.Idle?
      ensures iterations <= Measure(old(bucket), MostShards(cfg)) + stuckIterations + 1
      ensures stuckIterations <= patience + 1 && (stuckIterations > 0 ==> BarrenWork(setup, old(bucket)))
      ensures ok && complete ==> iterations > 0 && NothingRipe(cfg, Open(bucket), ranges, now(iterations - 1))
      ensures forall i, k, p :: |old(run)| - 1 <= i <= k < |run| && Stored(setup.has, run[i].bucket, p) ==>
          Stored(setup.has, run[k].bucket, p)
    {
      ghost var none := (b: Bucket, t: int) => NothingRipe(cfg, Open(b), ranges, t);
      ok, iterations, complete, stuckIterations := IterateWhileLet(now, patience, none);
      NothingLostIn(world, setup, legal, run);
    }

    method IterateWhileLet(now: nat -> int, patience: nat, ghost none: (Bucket, int) -> bool)
        returns (ok: bool, iterations: nat, complete: bool, stuckIterations: nat)
      requires Valid() && memory.Idle?
      requires Tells(cfg, ranges, none)
      modifies this, filter
      ensures Valid() && old(run) <= run && memory.Idle?
      ensures iterations <= Measure(old(bucket), MostShards(cfg)) + stuckIterations + 1
      ensures stuckIterations <= patience + 1 && (stuckIterations > 0 ==> BarrenWork(setup, old(bucket)))
      ensures ok && complete ==> iterations > 0 && none(bucket, now(iterations - 1))
    {
      iterations, stuckIterations, ok, complete := 0, 0, true, false;
      var again, time := true, now(0);
      ghost var weight: nat, barren := Measure(bucket, MostShards(cfg)), BarrenWork(setup, bucket);
      ghost var left := weight;
      while again
        invariant Valid() && old(run) <= run && memory.Idle? && Onward(setup, old(bucket), bucket)
        invariant again ==> ok && iterations + left <= weight + stuckIterations
        invariant iterations <= weight + stuckIterations + 1
        invariant stuckIterations <= patience + 1 && (stuckIterations > 0 ==> barren)
        invariant left == Measure(bucket, MostShards(cfg))
        invariant iterations > 0 ==> time == now(iterations - 1)
        invariant ok && complete && !again ==> iterations > 0 && none(bucket, time)
        decreases again, patience + 1 - stuckIterations + left
      {
        if stuckIterations > patience {
          return false, iterations, false, stuckIterations;
        }
        var stuck;
        time := now(iterations);
        again, ok, complete, stuck, left := Again(time, none, old(bucket), barren, left);
        iterations := iterations + 1;
        if !ok {
          return;
        }
        if again && stuck {
          stuckIterations := stuckIterations + 1;
        }
      }
    }
  }

  /** The jobs for the synced blocks, ready to run. */
  method PlanJobs(cfg: Config, metas: map<ULID, Meta>, ranges: seq<int>, now: int,
                  labelHash: map<string, string> -> nat, ghost b: Bucket)
    returns (jobs: Option<seq<Snapshot>>, ghost planned: seq<Job>, ghost highest: int)
    requires PositiveRanges(ranges) && InSync(b, {}, metas)
    ensures IsHighest(ValueSet(metas), highest)
    ensures forall j :: j in planned ==> IsRipeJob(cfg, ValueSet(metas), ranges, highest, now, j)
    ensures jobs.Some? ==> AllCarry(jobs.value, planned, cfg) && AllViable(cfg, planned, b)
    ensures planned == [] ==> NothingRipe(cfg, ValueSet(metas), ranges, now)
  {
    var made, plan, last := Groups(cfg, metas, ranges, now, labelHash);
    planned, highest := plan, last;
    PlanIsPrepared(cfg, metas, ranges, highest, now, plan, b);
    if plan == [] { NothingPlanned(cfg, ValueSet(metas), ranges, highest, now); }
    if made.None? {
      return None, planned, highest;
    }
    jobs := Some(Snaps(made.value));
  }

  lemma NothingPlanned(cfg: Config, blocks: set<Meta>, ranges: seq<int>, highest: int, now: int)
    requires IsRipePlan(cfg, blocks, ranges, highest, now, []) && IsHighest(blocks, highest)
    ensures NothingRipe(cfg, blocks, ranges, now)
  {
    forall key, id | InPlan(cfg, blocks, ranges, key, id) ensures !RipeInGroup(cfg, blocks, key, id, highest, now) {
      assert !HasPlannedJob([], key, id);
    }
  }

  lemma StartedWithout(plan: seq<Job>, k: nat)
    requires k < |plan|
    ensures Started(Without(plan, k)) == Without(Started(plan), k)
  {
  }

  /** The job objects carry the planned jobs. */
  ghost predicate AllCarry(jobs: seq<Snapshot>, plan: seq<Job>, cfg: Config) {
    |jobs| == |plan| && forall k :: 0 <= k < |jobs| ==> Carries(jobs[k], cfg, plan[k])
  }

  /** An iteration from b, with the duplicates collected at c, to b': a stuck one had barren work, and one that is to
      be followed by another without having changed anything had a barren job. */
  lemma StuckIsBarren(v: Setup, b: Bucket, c: Bucket, b': Bucket, n: nat, now: int, again: bool, stuck: bool)
    requires Onward(v, b, c) && Onward(v, c, b') && c == b.(deleted := c.deleted)
    requires again && !stuck ==> Measure(b', n) < Measure(c, n)
    requires stuck ==> BarrenRipe(v, Open(c), now)
    ensures stuck ==> BarrenWork(v, b)
    ensures again && b' == b ==> BarrenRipe(v, Open(b'), now)
  {
    if stuck {
      BarrenRipeIsWork(v, c, now);
      NoNewBarrenWork(v, b, c);
    }
    if b' == b { assert c == b; }
  }

  lemma FewerAreBarren(v: Setup, plan: seq<Job>, k: nat)
    requires k < |plan|
    ensures HasBarren(v, Without(plan, k)) || BarrenJob(v, plan[k]) ==> HasBarren(v, plan)
  {
    if j :| 0 <= j < |plan| - 1 && BarrenJob(v, Without(plan, k)[j]) {
      assert Without(plan, k)[j] == plan[Skipping(j, k)];
    }
  }

  lemma CarryWithout(jobs: seq<Snapshot>, plan: seq<Job>, cfg: Config, k: nat)
    requires AllCarry(jobs, plan, cfg) && k < |jobs|
    ensures AllCarry(Without(jobs, k), Without(plan, k), cfg)
  {
    var jobs', plan' := Without(jobs, k), Without(plan, k);
    forall j | 0 <= j < |plan'| ensures Carries(jobs'[j], cfg, plan'[j]) {
      assert plan'[j] == plan[Skipping(j, k)] && jobs'[j] == jobs[Skipping(j, k)];
    }
  }

  function Skipping(j: nat, k: nat): nat {
    if j < k then j else j + 1
  }

  lemma ViableWithout(cfg: Config, plan: seq<Job>, b: Bucket, k: nat)
    requires AllViable(cfg, plan, b) && k < |plan|
    ensures AllViable(cfg, Without(plan, k), b)
    ensures forall j :: 0 <= j < |plan| - 1 ==> BlockIDs(Without(plan, k)[j].blocks) !! BlockIDs(plan[k].blocks)
  {
    var plan' := Without(plan, k);
    forall j | 0 <= j < |plan'|
      ensures Viable(cfg, plan'[j]) && Ready(b, plan'[j].blocks) &&
      BlockIDs(plan'[j].blocks) !! BlockIDs(plan[k].blocks)
    {
      assert plan'[j] == plan[Skipping(j, k)];
    }
    forall i, j | 0 <= i < j < |plan'| ensures BlockIDs(plan'[i].blocks) !! BlockIDs(plan'[j].blocks) {
      assert plan'[i] == plan[Skipping(i, k)] && plan'[j] == plan[Skipping(j, k)];
    }
  }

  /** What happens to other blocks leaves a job ready. */
  lemma ViableAfter(cfg: Config, plan: seq<Job>, b: Bucket, b': Bucket, ids: set<ULID>, next: ULID)
    requires AllViable(cfg, plan, b) && OnlyTouched(b, b', ids, next) && forall id :: id in b.blocks ==> id < next
    requires forall j :: 0 <= j < |plan| ==> BlockIDs(plan[j].blocks) !! ids
    ensures AllViable(cfg, plan, b')
  {
    forall j | 0 <= j < |plan| ensures Ready(b', plan[j].blocks) {
      forall m | m in plan[j].blocks ensures m.ulid in b'.Live() && b'.blocks[m.ulid] == m && m.ulid !in b'.noCompact {
        assert m.ulid in BlockIDs(plan[j].blocks) && Ready(b, plan[j].blocks);
      }
    }
  }

  lemma PlannedIsViable(cfg: Config, blocks: set<Meta>, ranges: seq<int>, job: Job)
    requires IsPlannedJob(cfg, blocks, ranges, job)
    ensures Viable(cfg, job) && forall m :: m in job.blocks ==> m in blocks
  {
    PlannedIsOneKind(cfg, blocks, ranges, job);
    var key := KeyOf(job.blocks[0]);
    var k := PlannedIsCandidate(cfg, MainGroup(blocks, key), ranges, ShardCountOf(cfg, key) > 0, |ranges|, job.id);
    SizeOfElements(job.blocks);
  }

  /** A plan made on synced blocks has jobs that can run one after the other. */
  lemma PlanIsPrepared(cfg: Config, metas: map<ULID, Meta>, ranges: seq<int>, highest: int, now: int, plan: seq<Job>,
                       b: Bucket)
    requires InSync(b, {}, metas) && PositiveRanges(ranges) &&
        IsRipePlan(cfg, ValueSet(metas), ranges, highest, now, plan)
    ensures AllViable(cfg, plan, b)
    ensures forall j :: j in plan ==> IsPlannedJob(cfg, ValueSet(metas), ranges, j)
  {
    forall k | 0 <= k < |plan| ensures Viable(cfg, plan[k]) && Ready(b, plan[k].blocks) {
      assert plan[k] in plan;
      PlannedIsViable(cfg, ValueSet(metas), ranges, plan[k]);
    }
    forall j, k | 0 <= j < k < |plan| ensures BlockIDs(plan[j].blocks) !! BlockIDs(plan[k].blocks) {
      JobsShareNoBlock(cfg, ValueSet(metas), ranges, highest, now, plan, j, k);
      assert Ready(b, plan[j].blocks) && Ready(b, plan[k].blocks);
      forall id | id in BlockIDs(plan[j].blocks) ensures id !in BlockIDs(plan[k].blocks) {
        assert b.blocks[id] in Elements(plan[j].blocks);
      }
    }
  }

  /** The blocks are the ones of the bucket that are live, no duplicates, and open to compaction. */
  ghost predicate InSync(b: Bucket, duplicates: set<ULID>, metas: map<ULID, Meta>) {
    metas == b.Live() - duplicates - b.noCompact && forall id :: id in metas ==> metas[id].ulid == id
  }

  lemma SyncedAreInSync(b: Bucket, kept: map<ULID, Meta>)
    requires Keyed(b.blocks) && forall id :: id in kept ==> id in b.Live() && kept[id] == b.Live()[id]
    ensures InSync(b, b.Live().Keys - kept.Keys, kept - b.noCompact)
  {
    assert kept == b.Live() - (b.Live().Keys - kept.Keys);
  }

  lemma CollectedAreInSync(b: Bucket, duplicates: set<ULID>, metas: map<ULID, Meta>, id: ULID)
    requires InSync(b, duplicates, metas) && id in duplicates
    ensures InSync(Mark(b, id), duplicates - {id}, metas - {id})
  {
    var after := Mark(b, id);
    assert after.Live() == b.Live() - {id};
    assert metas - {id} == after.Live() - (duplicates - {id}) - after.noCompact;
  }

  lemma NextBlockID(blocks: seq<Meta>, k: nat)
    requires k < |blocks|
    ensures BlockIDs(blocks[..k + 1]) == BlockIDs(blocks[..k]) + {blocks[k].ulid}
  {
    assert blocks[..k + 1] == blocks[..k] + [blocks[k]];
  }

  lemma NextEmptyID(blocks: seq<Meta>, k: nat)
    requires k < |blocks|
    ensures EmptyIDs(blocks[..k + 1]) ==
            EmptyIDs(blocks[..k]) + if blocks[k].numSamples == 0 then {blocks[k].ulid} else {}
  {
    assert blocks[..k + 1] == blocks[..k] + [blocks[k]];
  }

  lemma NextDuplicate(ids: seq<ULID>, k: nat)
    requires NoRepeats(ids) && k < |ids|
    ensures ids[k] in Elements(ids[k..]) && Elements(ids[k + 1..]) == Elements(ids[k..]) - {ids[k]}
    ensures Elements(ids[..k + 1]) == Elements(ids[..k]) + {ids[k]}
  {
    assert ids[k..] == [ids[k]] + ids[k + 1..];
    assert ids[..k + 1] == ids[..k] + [ids[k]];
  }

  /** Closing a block to compaction is progress. */
  lemma ClosedShrinks(b: Bucket, b': Bucket, blocks: seq<Meta>, id: ULID, n: nat)
    requires Ready(b, blocks) && id in BlockIDs(blocks) && b' == b.(noCompact := b'.noCompact) &&
        b.noCompact + {id} <= b'.noCompact
    ensures Measure(b', n) < Measure(b, n)
  {
    assert id in b.Live() && id !in b.noCompact && id in b'.noCompact;
    MarkingShrinks(b, b', n);
  }

  lemma EmptyFulfils(w: World, job: Job, count: nat, compacted: seq<Option<Meta>>)
    requires job.blocks != [] && TsdbContract(w, job, count, compacted) && forall k :: 0 <= k < |compacted| ==>
        compacted[k].None?
    ensures CompactorContract(w, job, count, {})
  {
    assert NonEmpty(compacted, []);
    InjectedFulfil(w, job, count, compacted, [], []);
    assert Elements<Meta>([]) == {};
  }

  lemma SameMembers(a: seq<Meta>, b: seq<Meta>)
    requires multiset(a) == multiset(b)
    ensures (forall m :: m in a <==> m in b) && BlockIDs(a) == BlockIDs(b)
  {
    forall m ensures m in a <==> m in b { assert m in a <==> m in multiset(a); }
  }

  lemma WithoutReplaced(jobs: seq<RunningJob>, jobs': seq<RunningJob>, i: nat)
    requires i < |jobs| == |jobs'| && forall k :: 0 <= k < |jobs| && k != i ==> jobs'[k] == jobs[k]
    ensures Without(jobs', i) == Without(jobs, i)
  {
  }

  lemma GrownGoesOnward(v: Setup, b: Bucket, b': Bucket, outputs: seq<Meta>)
    requires Grown(b, b', Elements(outputs)) && forall m :: m in outputs ==> v.solid(m)
    ensures Onward(v, b, b')
  {
  }

  lemma GrownTouches(b: Bucket, b': Bucket, outputs: seq<Meta>, ids: set<ULID>, next: ULID)
    requires Grown(b, b', Elements(outputs)) && forall k :: 0 <= k < |outputs| ==> outputs[k].ulid >= next
    requires forall id :: id in b.blocks ==> id < next
    ensures OnlyTouched(b, b', ids, next)
  {
  }

  lemma HollowIsBarren(v: Setup, job: Job)
    requires HollowJob(v, job) && (v.marksFail || EmptyIDs(job.blocks) == {})
    ensures BarrenJob(v, job)
  {
    forall m | m in job.blocks ensures Barren(v, m) {
      assert m.numSamples == 0 ==> m.ulid in EmptyIDs(job.blocks);
    }
  }

  /** Marking blocks that were open to compaction is progress. */
  lemma MarkedShrinks(v: Setup, b: Bucket, b': Bucket, blocks: seq<Meta>, marked: set<ULID>, n: nat, next: ULID)
    requires Ready(b, blocks) && b' == b.(deleted := b.deleted + marked) && marked <= EmptyIDs(blocks)
    ensures (marked == {} <==> b' == b) && (marked != {} ==> Measure(b', n) < Measure(b, n))
    ensures OnlyTouched(b, b', BlockIDs(blocks), next) && Onward(v, b, b')
  {
    if marked != {} {
      var id :| id in marked;
      assert id in b.Live() && id !in b.noCompact && id in b'.deleted;
    }
    MarkingShrinks(b, b', n);
  }

  /** The blocks to upload, from the compactor's result. */
  method PrepareOutputs(c: Snapshot, compacted: seq<Option<Meta>>, ghost v: Setup, ghost job: Job,
                        ghost w: World, ghost next: ULID, ghost next': ULID) returns (outputs: seq<Meta>)
    requires Describes(w, v) && Carries(c, v.cfg, job) && OneKind(v.cfg, job)
    requires TsdbContract(w, job, c.splitNumShards, compacted) && NewULIDs(compacted, next, next')
    ensures CompactorContract(w, job, c.splitNumShards, Elements(outputs)) && Fits(v.cfg, job, Elements(outputs))
    ensures outputs == [] <==> forall k :: 0 <= k < |compacted| ==> compacted[k].None?
    ensures forall k :: 0 <= k < |outputs| ==> next <= outputs[k].ulid < next'
    ensures forall j, k :: 0 <= j < k < |outputs| ==> outputs[j].ulid != outputs[k].ulid
    ensures forall m :: m in outputs ==> v.solid(m)
  {
    var found := ConvertResult(compacted);
    outputs := InjectAll(c, found, v.cfg, job);
    InjectedFulfil(w, job, c.splitNumShards, compacted, found, outputs);
    InjectedAreDistinct(job, c.splitNumShards, compacted, found, outputs, next, next');
    ContractFits(w, v.cfg, job, Elements(outputs));
    assert |found| > 0 ==> compacted[found[0].shardIndex].Some?;
    forall m | m in outputs ensures v.solid(m) { OutputsAreSolid(w, v, job, Elements(outputs), m); }
  }

  /** Outputs were added, and perhaps marked as not to be compacted. */
  ghost predicate Grown(b: Bucket, b': Bucket, outputs: set<Meta>) {
    b'.deleted == b.deleted && b.noCompact <= b'.noCompact && b'.noCompact <= b.noCompact + IDs(outputs) &&
    (forall id :: id in b.blocks ==> id in b'.blocks) &&
    forall id :: id in b'.blocks ==>
      (id in b.blocks && b'.blocks[id] == b.blocks[id]) || (b'.blocks[id] in outputs && b'.blocks[id].ulid == id)
  }

  lemma SameOutputsBelow(b: Bucket, jobs: seq<RunningJob>, jobs': seq<RunningJob>, next: ULID)
    requires UsedBelow(b, jobs, next) && |jobs'| == |jobs| && forall k :: 0 <= k < |jobs| ==>
        OutputsOf(jobs'[k]) == OutputsOf(jobs[k])
    ensures UsedBelow(b, jobs', next)
  {
  }

  lemma NotYet(outputs: seq<Meta>, k: nat)
    requires NoRepeats(outputs) && k < |outputs|
    ensures outputs[k] in Elements(outputs) && outputs[k] !in Elements(outputs[..k])
    ensures Elements(outputs[..k + 1]) == Elements(outputs[..k]) + {outputs[k]}
  {
    assert outputs[..k + 1] == outputs[..k] + [outputs[k]];
  }

  lemma UsedBelowWithout(b: Bucket, jobs: seq<RunningJob>, i: nat, next: ULID)
    requires UsedBelow(b, jobs, next) && i < |jobs|
    ensures UsedBelow(b, Without(jobs, i), next)
  {
    var fewer := Without(jobs, i);
    forall k, m | 0 <= k < |fewer| && m in OutputsOf(fewer[k]) ensures m.ulid < next {
      assert fewer[k] == jobs[if k < i then k else k + 1];
    }
  }

  lemma FreshAbove(b: Bucket, jobs: seq<RunningJob>, next: ULID, outputs: seq<Meta>, next': ULID, i: nat, job: Job)
    requires UsedBelow(b, jobs, next) && i < |jobs| && next <= next'
    requires forall k :: 0 <= k < |outputs| ==> next <= outputs[k].ulid < next'
    requires forall j, k :: 0 <= j < k < |outputs| ==> outputs[j].ulid != outputs[k].ulid
    ensures FreshOutputs(b, jobs, Elements(outputs))
    ensures UsedBelow(b, jobs[i := RunningJob(job, Some(Elements(outputs)), {})], next')
  {
    var jobs' := jobs[i := RunningJob(job, Some(Elements(outputs)), {})];
    forall k, m | 0 <= k < |jobs'| && m in OutputsOf(jobs'[k]) ensures m.ulid < next' {
      assert k != i ==> m in OutputsOf(jobs[k]);
    }
  }
}
