/** Progress under concurrency. The jobs of an iteration run in any number of workers, so that their uploads and
    marks come in any order; whatever the order, and over any number of iterations, a run without new blocks from
    outside brings the measure of the blocks still to be compacted down with every mark on one of them, as
    long as every job that published an output saw its sources marked. */
module Interleaving {
  import opened Util
  import opened Block
  import opened Sequences
  import opened PlanSpec
  import opened Grouper
  import opened Jobs
  import opened Planner
  import opened Plan
  import opened PlanTheorems
  import opened CompactionRun
  import opened Progress
  import opened BucketCompaction

  /** The job has published outputs, and thereby taken its sources' place. */
  predicate Published(j: RunningJob) {
    j.uploaded != {}
  }

  /** A job that published something had all its sources marked. */
  predicate Settled(b: Bucket, j: RunningJob) {
    Published(j) ==> BlockIDs(j.job.blocks) <= b.deleted
  }

  /** No job is left between its first upload and the last of its marks. */
  ghost predicate AtRest(t: State) {
    forall k :: 0 <= k < |JobsOf(t.memory)| ==> Settled(t.bucket, JobsOf(t.memory)[k])
  }

  /** The jobs are ripe ones planned on the synced blocks, each at most once. */
  ghost predicate RipeStart(v: Setup, metas: map<ULID, Meta>, jobs: seq<Job>) {
    exists highest, now :: IsRipePart(v.cfg, ValueSet(metas), v.ranges, highest, now, jobs)
  }

  /** The steps of the compactor and of the blocks cleaner. A job is dropped, and an iteration ends or the
      compactor crashes, only with no job between its first upload and its last mark. No block comes from outside. */
  ghost predicate IsCalm(v: Setup, t: State, step: Step) {
    match step
    case NewBlock(_) => false
    case StartJobs(jobs) => t.memory.Synced? ==> RipeStart(v, t.memory.metas, jobs)
    case DropJob(i) => t.memory.Running? && i < |t.memory.jobs| ==> Settled(t.bucket, t.memory.jobs[i])
    case EndIteration => AtRest(t)
    case Crash => AtRest(t)
    case _ => true
  }

  /** The job as the bookkeeping needs it: until it publishes, its sources are among the accounted blocks;
      from then on its outputs are. */
  ghost predicate Accounted(cfg: Config, j: RunningJob, u: set<ULID>, s: set<ULID>) {
    Viable(cfg, j.job) && |BlockIDs(j.job.blocks)| == |j.job.blocks| && j.uploaded <= OutputsOf(j) &&
    (j.outputs.Some? ==> Fits(cfg, j.job, j.outputs.value)) &&
    if Published(j) then KindIDs(OutputsOf(j), false) <= u && KindIDs(OutputsOf(j), true) <= s else Opens(j.job, u, s)
  }

  /** The block is a source of a job that has published. */
  ghost predicate IsReplaced(jobs: seq<RunningJob>, id: ULID) {
    exists k :: 0 <= k < |jobs| && Published(jobs[k]) && id in BlockIDs(jobs[k].job.blocks)
  }

  ghost predicate SourcesApart(jobs: seq<RunningJob>) {
    forall j, k :: 0 <= j < k < |jobs| ==> BlockIDs(jobs[j].job.blocks) !! BlockIDs(jobs[k].job.blocks)
  }

  /** Every open block is accounted for or being replaced. */
  ghost predicate OpenAccounted(b: Bucket, jobs: seq<RunningJob>, u: set<ULID>, s: set<ULID>) {
    (forall id :: id in Working(b, false) ==> id in u || IsReplaced(jobs, id)) &&
    (forall id :: id in Working(b, true) ==> id in s || IsReplaced(jobs, id))
  }

  ghost predicate Tracks(cfg: Config, t: State, u: set<ULID>, s: set<ULID>) {
    t.memory.Running? && SourcesApart(t.memory.jobs) && OpenAccounted(t.bucket, t.memory.jobs, u, s) &&
    forall k :: 0 <= k < |t.memory.jobs| ==> Accounted(cfg, t.memory.jobs[k], u, s)
  }

  ghost predicate OpenWithin(b: Bucket, u: set<ULID>, s: set<ULID>) {
    Working(b, false) <= u && Working(b, true) <= s
  }

  ghost predicate MetasWithin(metas: map<ULID, Meta>, u: set<ULID>, s: set<ULID>) {
    forall id :: id in metas ==> metas[id].ulid == id && id in if ShardID(metas[id]) != "" then s else u
  }

  /** The accounts in every state of the compactor. */
  ghost predicate Balanced(cfg: Config, t: State, u: set<ULID>, s: set<ULID>) {
    match t.memory
    case Idle => OpenWithin(t.bucket, u, s)
    case Synced(_, metas) => OpenWithin(t.bucket, u, s) && MetasWithin(metas, u, s)
    case Running(_) => Tracks(cfg, t, u, s)
  }

  /** The accounts are as at the start, or lighter. */
  ghost predicate NotHeavier(n: nat, u: set<ULID>, s: set<ULID>, u': set<ULID>, s': set<ULID>) {
    (u' == u && s' == s) || Weight(u', s', n) < Weight(u, s, n)
  }

  // ---------- single steps ----------

  /** Marks and removals leave the accounts as they are. */
  lemma MarksTrack(cfg: Config, t: State, b: Bucket, u: set<ULID>, s: set<ULID>)
    requires Tracks(cfg, t, u, s) && Working(b, false) <= Working(t.bucket, false) &&
        Working(b, true) <= Working(t.bucket, true)
    ensures Tracks(cfg, t.(bucket := b), u, s)
  {
  }

  /** The same jobs, none of which published less. */
  ghost predicate SameJobs(jobs: seq<RunningJob>, jobs': seq<RunningJob>) {
    |jobs'| == |jobs| && forall k :: 0 <= k < |jobs| ==>
      jobs'[k].job == jobs[k].job && (Published(jobs[k]) ==> Published(jobs'[k]))
  }

  lemma ReplacedStays(jobs: seq<RunningJob>, jobs': seq<RunningJob>, id: ULID)
    requires SameJobs(jobs, jobs') && IsReplaced(jobs, id)
    ensures IsReplaced(jobs', id)
  {
    var k :| 0 <= k < |jobs| && Published(jobs[k]) && id in BlockIDs(jobs[k].job.blocks);
    assert Published(jobs'[k]);
  }

  lemma SourcesStayApart(jobs: seq<RunningJob>, jobs': seq<RunningJob>)
    requires SameJobs(jobs, jobs') && SourcesApart(jobs)
    ensures SourcesApart(jobs')
  {
  }

  lemma CompactTracks(w: World, v: Setup, t: State, i: nat, outputs: set<Meta>, t': State, u: set<ULID>, s: set<ULID>)
    requires Tracks(v.cfg, t, u, s) && Compacts(w, v, t, i, outputs, t')
    ensures Tracks(v.cfg, t', u, s)
  {
    var jobs, jobs' := t.memory.jobs, t'.memory.jobs;
    assert Accounted(v.cfg, jobs[i], u, s);
    ContractFits(w, v.cfg, jobs[i].job, outputs);
    assert Accounted(v.cfg, jobs'[i], u, s);
    SourcesStayApart(jobs, jobs');
    forall id | IsReplaced(jobs, id) ensures IsReplaced(jobs', id) { ReplacedStays(jobs, jobs', id); }
  }

  lemma ReplacedWithout(jobs: seq<RunningJob>, jobs': seq<RunningJob>, i: nat, id: ULID)
    requires i < |jobs| && jobs' == jobs[..i] + jobs[i + 1..] && IsReplaced(jobs, id)
    requires Published(jobs[i]) ==> id !in BlockIDs(jobs[i].job.blocks)
    ensures IsReplaced(jobs', id)
  {
    var k :| 0 <= k < |jobs| && Published(jobs[k]) && id in BlockIDs(jobs[k].job.blocks);
    assert jobs'[if k < i then k else k - 1] == jobs[k];
  }

  lemma ApartAndAccountedWithout(cfg: Config, jobs: seq<RunningJob>, jobs': seq<RunningJob>, i: nat, u: set<ULID>,
                                 s: set<ULID>)
    requires i < |jobs| && jobs' == jobs[..i] + jobs[i + 1..] && SourcesApart(jobs)
    requires forall k :: 0 <= k < |jobs| ==> Accounted(cfg, jobs[k], u, s)
    ensures SourcesApart(jobs') && forall k :: 0 <= k < |jobs'| ==> Accounted(cfg, jobs'[k], u, s)
  {
    assert forall k :: 0 <= k < |jobs'| ==> jobs'[k] == jobs[if k < i then k else k + 1];
  }

  lemma DropTracks(cfg: Config, t: State, i: nat, t': State, u: set<ULID>, s: set<ULID>)
    requires Tracks(cfg, t, u, s) && Drops(t, i, t') && Settled(t.bucket, t.memory.jobs[i])
    ensures Tracks(cfg, t', u, s)
  {
    var jobs, jobs' := t.memory.jobs, t'.memory.jobs;
    ApartAndAccountedWithout(cfg, jobs, jobs', i, u, s);
    forall id, x | id in Working(t.bucket, x) && IsReplaced(jobs, id) ensures IsReplaced(jobs', id) {
      ReplacedWithout(jobs, jobs', i, id);
    }
  }

  /** The accounts after the job's sources are replaced by its outputs. */
  function Replacing(before: set<ULID>, j: RunningJob, sharded: bool): set<ULID> {
    (before - BlockIDs(j.job.blocks)) + KindIDs(OutputsOf(j), sharded)
  }

  /** The uploaded block is accounted for, and the others are as before. */
  lemma UploadedAccounted(t: State, i: nat, m: Meta, t': State, u: set<ULID>, s: set<ULID>, u': set<ULID>,
                          s': set<ULID>)
    requires t.memory.Running? && Uploads(t, i, m, t') && OpenAccounted(t.bucket, t.memory.jobs, u, s)
    requires u <= u' + BlockIDs(t.memory.jobs[i].job.blocks) && s <= s' + BlockIDs(t.memory.jobs[i].job.blocks)
    requires KindIDs(OutputsOf(t.memory.jobs[i]), false) <= u' && KindIDs(OutputsOf(t.memory.jobs[i]), true) <= s'
    ensures OpenAccounted(t'.bucket, t'.memory.jobs, u', s')
  {
    var jobs, jobs' := t.memory.jobs, t'.memory.jobs;
    assert m in OutputsOf(jobs[i]) && Published(jobs'[i]) && SameJobs(jobs, jobs');
    forall id, x | id in Working(t'.bucket, x) ensures id in (if x then s' else u') || IsReplaced(jobs', id) {
      if id == m.ulid {
        assert id in KindIDs(OutputsOf(jobs[i]), x);
      } else {
        assert id in Working(t.bucket, x);
        if IsReplaced(jobs, id) {
          ReplacedStays(jobs, jobs', id);
        } else if id in BlockIDs(jobs[i].job.blocks) {
          assert id in BlockIDs(jobs'[i].job.blocks);
        }
      }
    }
  }

  lemma ReplacedAccounted(t: State, i: nat, m: Meta, t': State, u: set<ULID>, s: set<ULID>)
    requires t.memory.Running? && Uploads(t, i, m, t') && OpenAccounted(t.bucket, t.memory.jobs, u, s)
    ensures OpenAccounted(t'.bucket, t'.memory.jobs, Replacing(u, t.memory.jobs[i], false),
        Replacing(s, t.memory.jobs[i], true))
  {
    UploadedAccounted(t, i, m, t', u, s, Replacing(u, t.memory.jobs[i], false), Replacing(s, t.memory.jobs[i], true));
  }

  lemma StillAccounted(cfg: Config, t: State, i: nat, m: Meta, t': State, u: set<ULID>, s: set<ULID>)
    requires Tracks(cfg, t, u, s) && Uploads(t, i, m, t') && Published(t.memory.jobs[i])
    ensures forall k :: 0 <= k < |t'.memory.jobs| ==> Accounted(cfg, t'.memory.jobs[k], u, s)
  {
    forall k | 0 <= k < |t'.memory.jobs| ensures Accounted(cfg, t'.memory.jobs[k], u, s) {
      assert Accounted(cfg, t.memory.jobs[k], u, s);
    }
  }

  /** A further output of a job that has published is already accounted for. */
  lemma LaterUploadTracks(cfg: Config, t: State, i: nat, m: Meta, t': State, u: set<ULID>, s: set<ULID>)
    requires Tracks(cfg, t, u, s) && Uploads(t, i, m, t') && Published(t.memory.jobs[i])
    ensures Tracks(cfg, t', u, s)
  {
    assert Accounted(cfg, t.memory.jobs[i], u, s);
    UploadedAccounted(t, i, m, t', u, s, u, s);
    StillAccounted(cfg, t, i, m, t', u, s);
    SourcesStayApart(t.memory.jobs, t'.memory.jobs);
  }

  /** Another job's accounts stay in order when job i takes its sources' place. */
  lemma OthersAccounted(cfg: Config, t: State, i: nat, k: nat, u: set<ULID>, s: set<ULID>)
    requires Tracks(cfg, t, u, s) && Apart(t.memory.jobs) && i < |t.memory.jobs| && k < |t.memory.jobs| && k != i
    ensures Accounted(cfg, t.memory.jobs[k], Replacing(u, t.memory.jobs[i], false),
        Replacing(s, t.memory.jobs[i], true))
  {
    var j, o := t.memory.jobs[i], t.memory.jobs[k];
    assert Accounted(cfg, o, u, s);
    if Published(o) {
      assert forall x, id :: id in KindIDs(OutputsOf(o), x) ==> id !in BlockIDs(j.job.blocks);
    } else if i < k {
      assert BlockIDs(j.job.blocks) !! BlockIDs(o.job.blocks);
    } else {
      assert BlockIDs(o.job.blocks) !! BlockIDs(j.job.blocks);
    }
  }

  lemma ReplacingShrinks(cfg: Config, j: RunningJob, u: set<ULID>, s: set<ULID>)
    requires Accounted(cfg, j, u, s) && !Published(j) && j.outputs.Some?
    ensures Weight(Replacing(u, j, false), Replacing(s, j, true), MostShards(cfg)) < Weight(u, s, MostShards(cfg))
  {
    JobShrinks(cfg, j.job, OutputsOf(j), u, s, Replacing(u, j, false), Replacing(s, j, true));
  }

  lemma AllAccounted(cfg: Config, t: State, i: nat, m: Meta, t': State, u: set<ULID>, s: set<ULID>)
    requires Tracks(cfg, t, u, s) && Apart(t.memory.jobs) && Uploads(t, i, m, t')
    ensures forall k :: 0 <= k < |t'.memory.jobs| ==>
              Accounted(cfg, t'.memory.jobs[k], Replacing(u, t.memory.jobs[i], false),
                Replacing(s, t.memory.jobs[i], true))
  {
    var jobs' := t'.memory.jobs;
    forall k | 0 <= k < |jobs'|
      ensures Accounted(cfg, jobs'[k], Replacing(u, t.memory.jobs[i], false), Replacing(s, t.memory.jobs[i], true))
    {
      if k == i {
        assert Accounted(cfg, t.memory.jobs[i], u, s);
      } else {
        OthersAccounted(cfg, t, i, k, u, s);
      }
    }
  }

  /** After the first output of a job the accounts have its outputs for its sources. */
  lemma FirstUploadTracks(cfg: Config, t: State, i: nat, m: Meta, t': State, u: set<ULID>, s: set<ULID>)
    requires Tracks(cfg, t, u, s) && Apart(t.memory.jobs) && Uploads(t, i, m, t')
    ensures Tracks(cfg, t', Replacing(u, t.memory.jobs[i], false), Replacing(s, t.memory.jobs[i], true))
  {
    AllAccounted(cfg, t, i, m, t', u, s);
    ReplacedAccounted(t, i, m, t', u, s);
    SourcesStayApart(t.memory.jobs, t'.memory.jobs);
  }

  lemma NothingReplaced(cfg: Config, t: State, u: set<ULID>, s: set<ULID>)
    requires Tracks(cfg, t, u, s) && AtRest(t)
    ensures OpenWithin(t.bucket, u, s)
  {
    forall x, id | id in Working(t.bucket, x) ensures !IsReplaced(t.memory.jobs, id) {
      forall k | 0 <= k < |t.memory.jobs| && Published(t.memory.jobs[k])
        ensures id !in BlockIDs(t.memory.jobs[k].job.blocks)
      {
        assert Settled(t.bucket, JobsOf(t.memory)[k]) && id !in t.bucket.deleted;
      }
    }
  }

  /** Blocks told apart by ULID, in two jobs without a common block. */
  lemma SourcesAreApart(metas: map<ULID, Meta>, a: seq<Meta>, b: seq<Meta>)
    requires forall id :: id in metas ==> metas[id].ulid == id
    requires Elements(a) <= ValueSet(metas) && Elements(b) <= ValueSet(metas) && Elements(a) !! Elements(b)
    ensures BlockIDs(a) !! BlockIDs(b)
  {
    forall m, n | m in a && n in b ensures m.ulid != n.ulid {
      assert m in Elements(a) && n in Elements(b);
    }
  }

  lemma StartedIsAccounted(v: Setup, metas: map<ULID, Meta>, job: Job, u: set<ULID>, s: set<ULID>)
    requires IsPlannedJob(v.cfg, ValueSet(metas), v.ranges, job) && MetasWithin(metas, u, s)
    ensures Accounted(v.cfg, RunningJob(job, None, {}), u, s) && Elements(job.blocks) <= ValueSet(metas)
  {
    PlannedIsViable(v.cfg, ValueSet(metas), v.ranges, job);
    forall m | m in job.blocks ensures m.ulid in metas && metas[m.ulid] == m { assert m in ValueSet(metas); }
    AsManyIDs(job.blocks);
  }

  lemma StartTracks(v: Setup, t: State, jobs: seq<Job>, t': State, u: set<ULID>, s: set<ULID>)
    requires Balanced(v.cfg, t, u, s) && Starts(v, t, jobs, t') && RipeStart(v, t.memory.metas, jobs)
    requires PositiveRanges(v.ranges)
    ensures Tracks(v.cfg, t', u, s)
  {
    var metas := t.memory.metas;
    var highest, now :| IsRipePart(v.cfg, ValueSet(metas), v.ranges, highest, now, jobs);
    forall k | 0 <= k < |jobs|
      ensures Accounted(v.cfg, Started(jobs)[k], u, s) && Elements(jobs[k].blocks) <= ValueSet(metas)
    {
      assert jobs[k] in jobs;
      StartedIsAccounted(v, metas, jobs[k], u, s);
    }
    forall j, k | 0 <= j < k < |jobs| ensures BlockIDs(jobs[j].blocks) !! BlockIDs(jobs[k].blocks) {
      JobsShareNoBlock(v.cfg, ValueSet(metas), v.ranges, highest, now, jobs, j, k);
      SourcesAreApart(metas, jobs[j].blocks, jobs[k].blocks);
    }
  }

  /** Whatever a running job does, the accounts are kept, and lighter if it was a first output. */
  lemma JobStepTracks(w: World, v: Setup, t: State, step: Step, t': State, u: set<ULID>, s: set<ULID>)
    returns (u': set<ULID>, s': set<ULID>)
    requires Inv(v, t) && Tracks(v.cfg, t, u, s) && IsCalm(v, t, step) && Next(w, v, t, step, t')
    requires step.CompactJob? || step.UploadOutput? || step.DropJob?
    ensures Tracks(v.cfg, t', u', s') && NotHeavier(MostShards(v.cfg), u, s, u', s')
  {
    u', s' := u, s;
    if step.CompactJob? {
      CompactTracks(w, v, t, step.i, step.outputs, t', u, s);
    } else if step.DropJob? {
      DropTracks(v.cfg, t, step.i, t', u, s);
    } else if Published(t.memory.jobs[step.i]) {
      LaterUploadTracks(v.cfg, t, step.i, step.m, t', u, s);
    } else {
      assert Accounted(v.cfg, t.memory.jobs[step.i], u, s);
      ReplacingShrinks(v.cfg, t.memory.jobs[step.i], u, s);
      FirstUploadTracks(v.cfg, t, step.i, step.m, t', u, s);
      u', s' := Replacing(u, t.memory.jobs[step.i], false), Replacing(s, t.memory.jobs[step.i], true);
    }
  }

  /** Marks and removals open no block. */
  lemma MarksBalance(w: World, v: Setup, t: State, step: Step, t': State, u: set<ULID>, s: set<ULID>)
    requires Balanced(v.cfg, t, u, s) && Next(w, v, t, step, t')
    requires step.RemoveMarked? || step.MarkDuplicate? || step.MarkSource? || step.MarkEmptySource? ||
        step.MarkNoCompact?
    ensures Balanced(v.cfg, t', u, s)
  {
    assert Working(t'.bucket, false) <= Working(t.bucket, false) &&
      Working(t'.bucket, true) <= Working(t.bucket, true);
    if t.memory.Running? {
      assert t' == t.(bucket := t'.bucket);
      MarksTrack(v.cfg, t, t'.bucket, u, s);
    }
  }

  lemma SyncBalances(v: Setup, t: State, kept: map<ULID, Meta>, t': State, u: set<ULID>, s: set<ULID>)
    requires Inv(v, t) && Balanced(v.cfg, t, u, s) && Syncs(t, kept, t')
    ensures Balanced(v.cfg, t', u, s)
  {
    var b, metas := t.bucket, t'.memory.metas;
    forall id | id in metas ensures metas[id].ulid == id && id in Working(b, ShardID(metas[id]) != "") {
      assert id in b.Live() && metas[id] == b.blocks[id];
    }
  }

  /** Every calm step keeps the accounts. */
  lemma StepTracks(w: World, v: Setup, t: State, step: Step, t': State, u: set<ULID>, s: set<ULID>)
    returns (u': set<ULID>, s': set<ULID>)
    requires Inv(v, t) && Balanced(v.cfg, t, u, s) && IsCalm(v, t, step) && Next(w, v, t, step, t')
    requires PositiveRanges(v.ranges)
    ensures Balanced(v.cfg, t', u', s') && NotHeavier(MostShards(v.cfg), u, s, u', s')
  {
    u', s' := u, s;
    if step.CompactJob? || step.UploadOutput? || step.DropJob? {
      u', s' := JobStepTracks(w, v, t, step, t', u, s);
    } else if step.StartJobs? {
      StartTracks(v, t, step.jobs, t', u, s);
    } else if step.Sync? {
      SyncBalances(v, t, step.kept, t', u, s);
    } else if step.EndIteration? || step.Crash? {
      if t.memory.Running? { NothingReplaced(v.cfg, t, u, s); }
    } else {
      MarksBalance(w, v, t, step, t', u, s);
    }
  }

  lemma MarksOnlyCome(w: World, v: Setup, t: State, step: Step, t': State)
    requires Next(w, v, t, step, t')
    ensures t.bucket.deleted <= t'.bucket.deleted && t.bucket.noCompact <= t'.bucket.noCompact
  {
  }

  // ---------- runs ----------

  ghost predicate Takes(w: World, v: Setup, run: seq<State>, steps: seq<Step>) {
    |run| == |steps| + 1 && forall i :: 0 <= i < |steps| ==> Next(w, v, run[i], steps[i], run[i + 1])
  }

  ghost predicate TakesCalm(w: World, v: Setup, run: seq<State>, steps: seq<Step>) {
    Takes(w, v, run, steps) && forall i :: 0 <= i < |steps| ==> IsCalm(v, run[i], steps[i])
  }

  lemma {:induction false} TakesKeepInv(w: World, v: Setup, run: seq<State>, steps: seq<Step>, k: nat)
    requires Describes(w, v) && Takes(w, v, run, steps) && k < |run| && Inv(v, run[0])
    ensures Inv(v, run[k])
  {
    if k > 0 {
      TakesKeepInv(w, v, run, steps, k - 1);
      assert Next(w, v, run[k - 1], steps[k - 1], run[k - 1 + 1]);
      StepKeepsInv(w, v, run[k - 1], steps[k - 1], run[k]);
    }
  }

  lemma {:induction false} MarksStay(w: World, v: Setup, run: seq<State>, steps: seq<Step>, i: nat, k: nat)
    requires Takes(w, v, run, steps) && i <= k < |run|
    ensures run[i].bucket.deleted <= run[k].bucket.deleted && run[i].bucket.noCompact <= run[k].bucket.noCompact
    decreases k
  {
    if i < k {
      MarksStay(w, v, run, steps, i, k - 1);
      assert Next(w, v, run[k - 1], steps[k - 1], run[k - 1 + 1]);
      MarksOnlyCome(w, v, run[k - 1], steps[k - 1], run[k]);
    }
  }

  /** The accounts at state t, opened with u and s. */
  ghost predicate Kept(v: Setup, u: set<ULID>, s: set<ULID>, t: State, u': set<ULID>, s': set<ULID>) {
    Inv(v, t) && Balanced(v.cfg, t, u', s') && NotHeavier(MostShards(v.cfg), u, s, u', s')
  }

  lemma StepKeeps(w: World, v: Setup, u: set<ULID>, s: set<ULID>, t: State, step: Step, t': State, x: set<ULID>,
                  y: set<ULID>)
    returns (u': set<ULID>, s': set<ULID>)
    requires Describes(w, v) && PositiveRanges(v.ranges) && Kept(v, u, s, t, x, y)
    requires IsCalm(v, t, step) && Next(w, v, t, step, t')
    ensures Kept(v, u, s, t', u', s')
  {
    StepKeepsInv(w, v, t, step, t');
    u', s' := StepTracks(w, v, t, step, t', x, y);
  }

  lemma StepOfRunKeeps(w: World, v: Setup, run: seq<State>, steps: seq<Step>, k: nat, u: set<ULID>, s: set<ULID>,
                       x: set<ULID>, y: set<ULID>)
    returns (u': set<ULID>, s': set<ULID>)
    requires Describes(w, v) && TakesCalm(w, v, run, steps) && k < |steps| && PositiveRanges(v.ranges)
    requires Kept(v, u, s, run[k], x, y)
    ensures Kept(v, u, s, run[k + 1], u', s')
  {
    u', s' := StepKeeps(w, v, u, s, run[k], steps[k], run[k + 1], x, y);
  }

  /** The accounts u and s of state i, kept up to state k. */
  lemma {:induction false} RunTracks(w: World, v: Setup, run: seq<State>, steps: seq<Step>, i: nat, k: nat,
                                     u: set<ULID>, s: set<ULID>)
    returns (u': set<ULID>, s': set<ULID>)
    requires Describes(w, v) && TakesCalm(w, v, run, steps) && i <= k < |run| && PositiveRanges(v.ranges)
    requires Kept(v, u, s, run[i], u, s)
    ensures Kept(v, u, s, run[k], u', s')
    decreases k
  {
    if i == k {
      u', s' := u, s;
    } else {
      var x, y := RunTracks(w, v, run, steps, i, k - 1, u, s);
      u', s' := StepOfRunKeeps(w, v, run, steps, k - 1, u, s, x, y);
    }
  }

  /** The block was open to compaction and is marked now. */
  ghost predicate NewlyMarked(b: Bucket, b': Bucket, id: ULID) {
    id in b.Live() && id !in b.noCompact && (id in b'.deleted || id in b'.noCompact)
  }

  ghost predicate SomeMarked(b: Bucket, b': Bucket) {
    exists id :: NewlyMarked(b, b', id)
  }

  /** What the accounts say at a state at rest. */
  lemma Settlement(v: Setup, b: Bucket, t: State, u: set<ULID>, s: set<ULID>)
    requires Balanced(v.cfg, t, u, s) && AtRest(t)
    requires NotHeavier(MostShards(v.cfg), Working(b, false), Working(b, true), u, s)
    ensures Measure(t.bucket, MostShards(v.cfg)) <= Measure(b, MostShards(v.cfg))
    ensures SomeMarked(b, t.bucket) ==> Measure(t.bucket, MostShards(v.cfg)) < Measure(b, MostShards(v.cfg))
  {
    if t.memory.Running? { NothingReplaced(v.cfg, t, u, s); }
    if SomeMarked(b, t.bucket) {
      var id :| NewlyMarked(b, t.bucket, id);
      var x := ShardID(b.blocks[id]) != "";
      assert id in Working(b, x) && id !in Working(t.bucket, x);
    }
    FewerWeigh(u, s, Working(t.bucket, false), Working(t.bucket, true), MostShards(v.cfg));
  }

  /** Jobs without common blocks, run in any interleaving until each has either published nothing or had all its
      sources marked: the measure is no larger than at the start, and smaller if any block open to
      compaction got marked. */
  lemma InterleavedJobsMakeProgress(w: World, v: Setup, run: seq<State>, steps: seq<Step>, plan: seq<Job>)
    requires Describes(w, v) && TakesCalm(w, v, run, steps) && PositiveRanges(v.ranges)
    requires run[0].memory == Running(Started(plan)) && Inv(v, run[0]) && AllViable(v.cfg, plan, run[0].bucket)
    requires AtRest(run[|run| - 1])
    ensures Measure(run[|run| - 1].bucket, MostShards(v.cfg)) <= Measure(run[0].bucket, MostShards(v.cfg))
    ensures SomeMarked(run[0].bucket, run[|run| - 1].bucket) ==>
              Measure(run[|run| - 1].bucket, MostShards(v.cfg)) < Measure(run[0].bucket, MostShards(v.cfg))
  {
    var b := run[0].bucket;
    StartedTracks(v.cfg, b, plan);
    var u, s := RunTracks(w, v, run, steps, 0, |run| - 1, Working(b, false), Working(b, true));
    Settlement(v, b, run[|run| - 1], u, s);
  }

  lemma StartedTracks(cfg: Config, b: Bucket, plan: seq<Job>)
    requires AllViable(cfg, plan, b)
    ensures Tracks(cfg, State(b, Running(Started(plan))), Working(b, false), Working(b, true))
  {
    forall k | 0 <= k < |plan| ensures Accounted(cfg, Started(plan)[k], Working(b, false), Working(b, true)) {
      assert Ready(b, plan[k].blocks);
      AsManyIDs(plan[k].blocks);
      ReadyAreOpen(cfg, plan[k], b);
    }
  }

  /** The same over any number of iterations, with the syncs and the garbage collections in between. */
  lemma CalmRunMakesProgress(w: World, v: Setup, run: seq<State>, steps: seq<Step>, i: nat, k: nat)
    requires Describes(w, v) && TakesCalm(w, v, run, steps) && PositiveRanges(v.ranges) && Inv(v, run[0])
    requires i <= k < |run| && run[i].memory.Idle? && AtRest(run[k])
    ensures Measure(run[k].bucket, MostShards(v.cfg)) <= Measure(run[i].bucket, MostShards(v.cfg))
    ensures SomeMarked(run[i].bucket, run[k].bucket) ==>
              Measure(run[k].bucket, MostShards(v.cfg)) < Measure(run[i].bucket, MostShards(v.cfg))
  {
    var b := run[i].bucket;
    TakesKeepInv(w, v, run, steps, i);
    var u, s := RunTracks(w, v, run, steps, i, k, Working(b, false), Working(b, true));
    Settlement(v, b, run[k], u, s);
  }

  // ---------- counting ----------

  /** Increasing points of the run at which the compactor is idle. */
  ghost predicate IdleAt(run: seq<State>, cuts: seq<nat>) {
    (forall j :: 0 <= j < |cuts| ==> cuts[j] < |run| && run[cuts[j]].memory.Idle?) &&
    forall j, k :: 0 <= j < k < |cuts| ==> cuts[j] <= cuts[k]
  }

  /** The number of stretches between the cuts in which an open block got marked. */
  ghost function Marking(run: seq<State>, cuts: seq<nat>): nat
    requires IdleAt(run, cuts)
  {
    var n := |cuts|;
    if n < 2 then 0
    else Marking(run, cuts[..n - 1]) + if SomeMarked(run[cuts[n - 2]].bucket, run[cuts[n - 1]].bucket) then 1 else 0
  }

  /** However a run is cut into iterations, those in which an open block got marked are at most as many as the
      blocks weigh at the start, and what the blocks weigh at the end is left of it. */
  lemma {:induction false} MarkingIsBounded(w: World, v: Setup, run: seq<State>, steps: seq<Step>, cuts: seq<nat>)
    requires Describes(w, v) && TakesCalm(w, v, run, steps) && PositiveRanges(v.ranges) && Inv(v, run[0])
    requires IdleAt(run, cuts) && cuts != []
    ensures Marking(run, cuts) + Measure(run[cuts[|cuts| - 1]].bucket, MostShards(v.cfg)) <=
            Measure(run[cuts[0]].bucket, MostShards(v.cfg))
    decreases |cuts|
  {
    var n := |cuts|;
    if n >= 2 {
      MarkingIsBounded(w, v, run, steps, cuts[..n - 1]);
      CalmRunMakesProgress(w, v, run, steps, cuts[n - 2], cuts[n - 1]);
    }
  }
}
