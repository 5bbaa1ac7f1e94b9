# Grafana Mimir: block compaction, cross-cluster consumption and Alertmanager shutdown, verified

A Dafny model of the parts of Mimir where a mistake loses data or leaks a goroutine, with proofs of what
those parts promise. `dafny verify dfyconfig.toml` checks everything.

**Deduplication** (`Sharding`, `Block`, `Bloom`, `DedupSpec`, `Verdicts`, `DedupGraph`, `DedupFilter`). The
shard-aware filter that finds blocks whose data is in other blocks. The successor graph lives on the heap
and is updated in place by the recursive insertion. It is proved to be the transitive reduction of
"included in a later block", the blocks removed are proved to be the ones later blocks cover, and nothing
is lost by removing them. The verdict on a block goes through its successors in the order of a Go map:
`Verdicts` has it as a function of that order, with the exact condition on the labels for all orders to
agree, and the exact condition for a yes to be right. One shard count among sharded blocks that share a
source is enough for it; blocks with two counts are given from which one order loses data and the other does
not.

**Planning** (`Ranges`, `PlanSpec`, `Grouper`, `Planner`, `Plan`, `PlanTheorems`, `Jobs`, `JobOrder`).
The split-and-merge grouper. `PlanSpec` says on sets of blocks which jobs are planned; the methods, with
their loops over slices and maps in any order, are proved to produce exactly those. On top of it: no two
jobs conflict or share a block, the plan does not depend on any iteration order, it is empty exactly when no
work is left, and the planner's double check rejects none of the jobs exactly when every range divides the last.

**The compaction run** (`CompactionRun`, `Progress`, `CompactedBlocks`, `HollowBlocks`, `BucketCompaction`,
`Interleaving`, `Iterations`). The compactor of a bucket as a protocol of single effects, with jobs
interleaved in every way, blocks coming and going, and a crash between any two effects. Over every run,
whatever is in a block that exists and is not marked for deletion stays in one. The code itself is the class
`BucketCompactor`: each of its effects is a step of the protocol, and its loop ends, because a measure of the
blocks still to be compacted drops with every job that changes anything. When it ends without having skipped a
job, no ripe job is left. The compactor can come back with nothing exactly when no block of the job contains
anything. Such a job still marks the blocks that count no samples; it leaves everything as it is only if its
blocks are *barren*: they count samples, or the marks fail. `Iterations` has the loop over the whole protocol,
with the jobs run concurrently: an iteration may repeat itself exactly when no block must go as a
duplicate and a ripe job has barren blocks only, and the loop ends when the barren blocks leave no work on their own.

**Consumption from several Kafka clusters** (`MergeSpec`, `HeadHeap`, `MultiCluster`, `ConsumeJob`). The
offset loop of a partition, the binary heap of heads, the merge by timestamp and the batching. The merge is a
function of the streams alone; success means that the consumer got exactly that merge of the wanted records,
failure that it got a beginning of it.

**ApplyConfig and Stop of an Alertmanager** (`AlertmanagerStop`). All interleavings of both calls and of the
goroutines they start: at most one inhibitor is running uncancelled, none after Stop, and nobody waits forever.

`Util`, `Arithmetic`, `Sorting`, `Sequences` and `Text` hold shared definitions.

## How the model relates to the code

- A ULID is the number its bytes spell, so the zero ULID is 0. Times, counts and offsets are unbounded
  integers; the conversions to uint32 of the shard and group counts are written out, and so is Go's division
  that truncates toward zero.
- A map that Go iterates over is iterated here in an arbitrary order. Failures of object storage, of the
  TSDB library and of Kafka, cancellation, ownership of jobs, waiting periods and the compaction time limit
  are nondeterministic choices; clocks, hash functions and tenant settings are parameters. So is whether marking
  an empty block for deletion can fail, which the code only logs.
- A *piece* of data is a series, given by its hash, of an original source block at a resolution. A block holds the
  pieces its sources and its shard label select. Nothing is supposed of labels that cannot be read.
- The compaction run supposes that a block counting no samples has none, that sharded blocks carry the shard
  count of their sources, and that the tenant's settings give unsharded blocks the count their sources have.
- The TSDB library is a parameter. It may fail; when it does not, its outputs have all sources, output i of a
  split is shard i, and there is one exactly where there is something to put in it.
- The comment at pkg/alertmanager/alertmanager.go:430-432 says that stopping a dispatcher closes its loaded
  channel. In the dispatcher only Run closes it; the model follows the code.

## Model

| member | source | states |
|---|---|---|
| Sharding.ParseOfFormat | pkg/storage/sharding/label.go:76-102 | reading a formatted shard ID gives back index and count, for every index below a count that fits 64 bits |
| Sharding.FormatIsInjective | pkg/storage/sharding/label.go:76-78 | two shard IDs with the same text have the same index and count |
| Bloom.BloomFilter.Add | pkg/compactor/shard_aware_deduplicate_filter.go:323-327 | adding a ULID turns the filter of a set into the filter of the set with it |
| Bloom.SubsetHasIncludedFilter | pkg/compactor/shard_aware_deduplicate_filter.go:316-338 | the filter of a subset is included in the filter of the set, for every hash function, so the shortcut refuses no inclusion |
| Bloom.IsIncludedIn | pkg/compactor/shard_aware_deduplicate_filter.go:329-338 | the word-by-word test decides inclusion of all words |
| DedupGraph.Node.constructor | pkg/compactor/shard_aware_deduplicate_filter.go:173-187 | the node has the block's shard, its set of sources without repetition and their bloom filter |
| DedupGraph.Node.IsIncludedIn | pkg/compactor/shard_aware_deduplicate_filter.go:192-224 | the test with its length and bloom shortcuts agrees with "shard compatible and every source contained", for every hash function and all source lists |
| DedupSpec.IncludedIsTransitive | pkg/compactor/shard_aware_deduplicate_filter.go:189-224 | inclusion is transitive |
| DedupGraph.Node.AddSuccessorIfPossible | pkg/compactor/shard_aware_deduplicate_filter.go:229-255 | says whether the new block includes this one; the nodes at and below get exactly the edges to it that the transitive reduction has, all other edges stay, and the recursion ends |
| DedupGraph.Node.AddBelowSuccessors | pkg/compactor/shard_aware_deduplicate_filter.go:241-248 | whatever the order of successors, the new block is added below exactly those that allow it, and below none exactly when it is to become a direct successor |
| DedupGraph.Node.IsFullyIncludedInSuccessors | pkg/compactor/shard_aware_deduplicate_filter.go:265-304 | for each order of the successors the verdict is the one of that order; the panic cannot happen |
| Verdicts.VerdictOrderIndependence | pkg/compactor/shard_aware_deduplicate_filter.go:265-304 | any two orders of the successors give the same verdict if and only if their labels meet a stated condition |
| Verdicts.FirstLabelDecides | pkg/compactor/shard_aware_deduplicate_filter.go:283-303 | with readable labels an order says yes exactly when the shard count of its first label equals the number of indices found |
| Verdicts.BoundsAreReached | pkg/compactor/shard_aware_deduplicate_filter.go:265-304 | what may be a duplicate is what some order of the successors says yes to, what must be one is what every order says yes to, for all labels |
| Verdicts.YesIsRightExactly | pkg/compactor/shard_aware_deduplicate_filter.go:265-304 | a yes of some order means that the successors have every series, if and only if no label counts as complete or they cover a stated finite set of hashes |
| DedupSpec.FiniteTest | pkg/compactor/shard_aware_deduplicate_filter.go:283-303 | labels cover all hashes if and only if they cover those below a common multiple of their counts |
| DedupSpec.UniformCountsAreRight | pkg/compactor/shard_aware_deduplicate_filter.go:283-303 | one shard count among sharded blocks that share a source makes every yes right |
| DedupSpec.VerdictIsCoverage | pkg/compactor/shard_aware_deduplicate_filter.go:283-303 | with one shard count, counting indices decides exactly whether every series is in some successor |
| Verdicts.MixedCountsMislead | pkg/compactor/shard_aware_deduplicate_filter.go:283-303 | with the labels 1 of 2 and 2 of 4 one order says yes and the other no, and a series is in neither |
| DedupGraph.Node.GetDuplicateBlocks | pkg/compactor/shard_aware_deduplicate_filter.go:306-314 | collects only blocks that may be duplicates, and all at or below the node that must be |
| DedupFilter.BuildTree | pkg/compactor/shard_aware_deduplicate_filter.go:131-139 | after all insertions the graph is the full transitive reduction over the sorted blocks |
| DedupFilter.GraphIsTransitiveReduction | pkg/compactor/shard_aware_deduplicate_filter.go:114-143 | a block is a direct successor exactly when it is included in later, with no block in between |
| DedupFilter.ReachableIffIncluded | pkg/compactor/shard_aware_deduplicate_filter.go:229-255 | along the successor maps of the nodes a block leads to another exactly when that one comes later and includes it |
| Reduction.PathsStayInOrder | pkg/compactor/shard_aware_deduplicate_filter.go:229-255 | every path leads to later blocks, so the graph has no cycle |
| DedupFilter.FindDuplicates | pkg/compactor/shard_aware_deduplicate_filter.go:114-143 | reports only blocks that may be duplicates by their direct successors, and all that must be, for every input and iteration order |
| DedupFilter.ReportedIffOutcome | pkg/compactor/shard_aware_deduplicate_filter.go:265-314 | a set of duplicates meets the bounds of may and must if and only if some choice of an order for each block's successors gives exactly it |
| DedupFilter.ShardAwareDeduplicateFilter.Filter | pkg/compactor/shard_aware_deduplicate_filter.go:33-58 | within each resolution removes only blocks that may be duplicates and all that must be; the duplicate IDs are the removed ones, each once |
| DedupFilter.FilterLosesNothing | pkg/compactor/shard_aware_deduplicate_filter.go:33-58 | every piece of every block is in a kept block of its resolution, as long as yes-verdicts among the blocks of that resolution are right |
| DedupFilter.FilterIsExact | pkg/compactor/shard_aware_deduplicate_filter.go:120-143 | with readable labels and one shard count a block is removed exactly when later blocks that contain its sources cover its shard, so the result is unique |
| DedupFilter.FilterIsIdempotent | pkg/compactor/shard_aware_deduplicate_filter.go:33-58 | filtering again removes nothing |
| DedupFilter.MixedCountsLoseData | pkg/compactor/shard_aware_deduplicate_filter.go:283-303 | three blocks with two shard counts: with one order of the two successors the filter removes the third, whose data is nowhere else, with the other it does not |
| Ranges.RangeStartIsRight | pkg/compactor/split_merge_grouper.go:361-368 | the range start is aligned and the time lies in its range, for negative times too |
| Ranges.RangeStartIsUnique | pkg/compactor/split_merge_grouper.go:361-368 | it is the only aligned start whose range has the time |
| Ranges.RangesNest | pkg/compactor/split_merge_planner.go:31-36 | a range lies in the range of each multiple of its length |
| Grouper.GroupBlocksByRange | pkg/compactor/split_merge_grouper.go:317-359 | each block that fits its aligned range is in exactly the group of that range, in order, and no other is in any; groups are aligned, disjoint and increasing |
| Grouper.GetNonShardedBlocks | pkg/compactor/split_merge_job.go:147-157 | the blocks without a shard ID, in order |
| Grouper.PlanSplitting | pkg/compactor/split_merge_grouper.go:254-294 | one split job for each split group some unsharded block falls in, with exactly those blocks |
| Grouper.PlanMerging | pkg/compactor/split_merge_grouper.go:230-246 | one merge job for each shard with at least two blocks of the group |
| Grouper.PlanCompactionByRange | pkg/compactor/split_merge_grouper.go:214-250 | the jobs are exactly the candidates of the range, once each |
| Planner.HasConflict | pkg/compactor/split_merge_grouper.go:143-150 | whether the job conflicts with one already planned |
| Planner.ConflictIffNotClear | pkg/compactor/split_merge_job.go:48-77 | conflicting with a job planned so far is clashing with a planned job of the same main group |
| Planner.PlanMainGroup | pkg/compactor/split_merge_grouper.go:130-154 | the jobs added for a main group are exactly its planned ones, whatever was planned for others |
| Planner.PlanAllGroups | pkg/compactor/split_merge_grouper.go:122-154 | the jobs are exactly the planned jobs of all main groups |
| PlanSpec.CandidatesDoNotClash | pkg/compactor/split_merge_job.go:48-77 | candidates of one range length never conflict with each other |
| PlanSpec.PlannedDoNotClash | pkg/compactor/split_merge_grouper.go:138-153 | planned jobs of a main group are pairwise free of conflicts, for every list of ranges |
| PlanSpec.PlannedAreDisjoint | pkg/compactor/split_merge_grouper.go:254-310 | two planned jobs of a main group share no block |
| Plan.GetMaxTime | pkg/compactor/split_merge_grouper.go:384-394 | the highest end among the blocks |
| Plan.LastToEnd | pkg/compactor/split_merge_job.go:121-131 | a block of the group that ends last |
| Plan.MaxCompactionLevel | pkg/compactor/split_merge_job.go:134-144 | the highest level among the blocks |
| Plan.DropPremature | pkg/compactor/split_merge_grouper.go:156-193 | removing in place keeps exactly the ripe jobs, in order |
| Plan.PlanCompaction | pkg/compactor/split_merge_grouper.go:115-210 | the jobs are exactly the planned ones that are ripe, once each, sorted by key |
| PlanTheorems.JobsDoNotConflict | pkg/compactor/split_merge_grouper.go:115-210 | the jobs of a plan are pairwise non-conflicting |
| PlanTheorems.JobsShareNoBlock | pkg/compactor/split_merge_grouper.go:115-210 | no block belongs to two jobs |
| PlanTheorems.PlansAgree | pkg/compactor/split_merge_grouper.go:122-154 | any two plans for the same blocks have the same jobs with the same blocks, so no iteration order matters |
| PlanTheorems.EmptyPlanIffNoWork | pkg/compactor/split_merge_grouper.go:130-193 | when the recency filter drops nothing, the plan is empty if and only if no work is left |
| PlanSpec.PlanIsEmptyIffNoWork | pkg/compactor/split_merge_grouper.go:214-250 | a main group has a planned job if and only if two blocks of a shard fit one aligned range, or an unsharded block is to be split |
| PlanTheorems.PlannerAcceptsPlannedJobs | pkg/compactor/split_merge_planner.go:23-50 | when every range divides the last, the double check rejects no planned job |
| PlanTheorems.PlannerRejectsMisaligned | pkg/compactor/compactor.go:215-220 | for every range that does not divide the last there are blocks with a planned job that is rejected |
| PlanTheorems.PlannerAcceptsAllIff | pkg/compactor/split_merge_planner.go:23-50 | no planned job is ever rejected if and only if every range divides the last |
| PlanTheorems.CheckedRangesDivideLast | pkg/compactor/compactor.go:215-220 | the check of the configuration, that each range divides the next, is enough for that |
| Jobs.CompactionJob.AppendMeta | pkg/compactor/job.go:63-76 | accepts exactly blocks with the job's labels and resolution, and keeps the blocks sorted |
| Jobs.CompactionJob.MinTime | pkg/compactor/job.go:90-95 | the true minimum, by the first block |
| Jobs.CompactionJob.MaxTime | pkg/compactor/job.go:98-106 | the true maximum |
| Jobs.MakeJob | pkg/compactor/split_merge_grouper.go:49-88 | fails exactly when the job's blocks mix an empty with an absent shard label; the error for a split job without shards is out of reach |
| Jobs.Groups | pkg/compactor/split_merge_grouper.go:45-94 | fails exactly when a stated condition on the blocks holds, never when shard labels, where present, are not empty; else gives one job for each planned one |
| Jobs.MixedJobIff | pkg/compactor/split_merge_grouper.go:45-94 | a job of the plan mixes labels if and only if, among the given blocks, those selected for some ripe planned job are with and without the shard label |
| Jobs.NonEmptyLabelsDoNotMix | pkg/compactor/job.go:63-76 | blocks whose shard labels, where present, are not empty never mix |
| Jobs.EmptyLabelMixes | pkg/compactor/job.go:63-76 | for every configuration without sharding, two blocks that do mix |
| Jobs.SplitHasShards | pkg/compactor/split_merge_grouper.go:103-110 | a planned split job has a positive shard count |
| Jobs.GroupKeyIsInjective | pkg/compactor/split_merge_grouper.go:59-66 | a group key determines resolution, label hash, stage, shard and range, for shard IDs without hyphens |
| Jobs.GroupKeysAreDistinct | pkg/compactor/split_merge_grouper.go:59-66 | distinct jobs of a plan have distinct group keys |
| JobOrder.GroupsHaveDistinctKeys | pkg/compactor/split_merge_grouper.go:59-94 | the jobs made for a plan have distinct keys |
| JobOrder.OneSmallestRangeOrder | pkg/compactor/job_sorting.go:38-70 | the jobs made for a plan come out in one order, whatever order they are given in |
| JobOrder.OneNewestOrder | pkg/compactor/job_sorting.go:76-95 | likewise for newest blocks first |
| JobOrder.SplitJobsComeFirst | pkg/compactor/job_sorting.go:44-52 | all split jobs come before all merge jobs |
| CompactionRun.FilterIsRemovable | pkg/compactor/bucket_compactor.go:109-121 | what sync reports as duplicates can all go without loss |
| CompactionRun.OutputsCover | pkg/compactor/bucket_compactor.go:389-410 | what is put out for a job has everything its blocks have |
| CompactionRun.OutputsAreGood | pkg/compactor/bucket_compactor.go:432-444 | outputs carry the shard count of their sources |
| CompactionRun.OutputsAreSolid | pkg/compactor/bucket_compactor.go:389-410 | every output contains something |
| CompactionRun.EmptyResultIff | pkg/compactor/bucket_compactor.go:398-410 | the compactor may come back without outputs if and only if no block of the job contains anything |
| CompactionRun.StepKeepsInv | pkg/compactor/bucket_compactor.go:389-581 | every step keeps the protocol's invariant |
| CompactionRun.DataAfterMarkDuplicate | pkg/compactor/bucket_compactor.go:143-173 | marking a duplicate loses nothing, at any point of the garbage collection |
| CompactionRun.DataAfterMarkSource | pkg/compactor/bucket_compactor.go:566-581 | marking a source after all uploads loses nothing |
| CompactionRun.DataAfterMarkEmpty | pkg/compactor/bucket_compactor.go:398-410 | marking a source without samples loses nothing |
| CompactionRun.StepKeepsData | pkg/compactor/bucket_compactor.go:488-581 | what is stored before any step is stored after it |
| CompactionRun.NoDataIsLost | pkg/compactor/bucket_compactor.go:1027-1232 | over every run, with every interleaving and crash, every piece in a live block is in a live block in all later states |
| CompactedBlocks.ConvertResult | pkg/compactor/bucket_compactor.go:648-665 | the non-empty results, each once, in order, with their shard index |
| CompactedBlocks.HasNonZeroULIDs | pkg/compactor/bucket_compactor.go:1435-1443 | whether some result is a block |
| CompactedBlocks.InjectAll | pkg/compactor/bucket_compactor.go:432-444 | each block gets the job's labels and resolution, with the ID of its own shard when splitting |
| CompactedBlocks.InjectedFulfil | pkg/compactor/bucket_compactor.go:424-444 | dropping empty results and injecting labels turns the library's contract into the protocol's: shard i is labelled i |
| Progress.SplitShrinks | pkg/compactor/split_merge_grouper.go:254-294 | replacing one or more unsharded blocks by at most N sharded ones brings the measure down |
| Progress.MergeShrinks | pkg/compactor/split_merge_grouper.go:231-246 | so does replacing two or more blocks by one of their kind |
| Progress.MarkingShrinks | pkg/compactor/bucket_compactor.go:1236-1322 | marking never brings it up, and brings it down if a block was open to compaction |
| HollowBlocks.BarrenJobIsWork | pkg/compactor/bucket_compactor.go:398-410 | a planned job of barren blocks is work that the barren blocks leave on their own |
| HollowBlocks.NoNewBarrenWork | pkg/compactor/bucket_compactor.go:1067-1232 | what the compactor does never makes new work for barren blocks |
| HollowBlocks.BarrenWorkIff | pkg/compactor/bucket_compactor.go:398-410 | barren blocks leave work on their own if and only if marks as not to be compacted can bring about a planned job of barren blocks only |
| BucketCompaction.BucketCompactor.SyncMetas | pkg/compactor/bucket_compactor.go:109-121 | loads the live blocks less the duplicates and those not to be compacted, as a step of the protocol |
| BucketCompaction.BucketCompactor.GarbageCollect | pkg/compactor/bucket_compactor.go:134-173 | marks exactly the duplicates and forgets them; each mark is a step of the protocol |
| BucketCompaction.BucketCompactor.UploadAll | pkg/compactor/bucket_compactor.go:488-561 | success only when all outputs are uploaded; nothing else changes but marks on outputs |
| BucketCompaction.BucketCompactor.MarkSources | pkg/compactor/bucket_compactor.go:566-580 | marks sources only, after all uploads, and all of them on success |
| BucketCompaction.BucketCompactor.MarkEmptySources | pkg/compactor/bucket_compactor.go:398-408 | marks only sources without samples, and all of them where marks do not fail |
| BucketCompaction.BucketCompactor.Publish | pkg/compactor/bucket_compactor.go:488-581 | on success the sources are replaced by the outputs; each effect is a step of the protocol, wherever it fails |
| BucketCompaction.BucketCompactor.RunCompactionJob | pkg/compactor/bucket_compactor.go:255-582 | touches only the job's blocks and new ones; on success there was progress, except exactly when the bucket is unchanged, and then all blocks of the job are barren |
| BucketCompaction.BucketCompactor.HandleKnownErrors | pkg/compactor/bucket_compactor.go:1236-1322 | an error is handled only when all marks were made, and then there was progress |
| BucketCompaction.BucketCompactor.RunJobs | pkg/compactor/bucket_compactor.go:1089-1135 | jobs in any order, some skipped: another iteration is asked for only after progress or a job of barren blocks, and whenever a job was run |
| BucketCompaction.BucketCompactor.CompactOnce | pkg/compactor/bucket_compactor.go:1067-1232 | an iteration to be followed by another made progress, unless a job was stuck, which needs work for barren blocks; if it left the bucket as it was, a ripe job planned on it has barren blocks only; a last one that skipped no job leaves no ripe job |
| BucketCompaction.BucketCompactor.Compact | pkg/compactor/bucket_compactor.go:1027-1061 | without work for barren blocks: at most as many iterations as the blocks weigh, and one; no data was lost between any two points; unless jobs were skipped, no ripe job is left |
| BucketCompaction.BucketCompactor.CompactWhileLet | pkg/compactor/bucket_compactor.go:1027-1061 | on all buckets, as long as it is let run: the same, but for the iterations with stuck jobs, of which there are none without work for barren blocks |
| BucketCompaction.PlanIsPrepared | pkg/compactor/bucket_compactor.go:1149-1152 | the jobs of a plan can run one after the other: each finds its blocks untouched by the others |
| Interleaving.StepTracks | pkg/compactor/bucket_compactor.go:1067-1232 | whatever step the compactor takes, the blocks still to be compacted are accounted for, with a job's outputs in its sources' place from its first upload on, and the account is the same or weighs less |
| Interleaving.InterleavedJobsMakeProgress | pkg/compactor/bucket_compactor.go:1089-1135 | jobs run in any interleaving until each has published nothing or had all its sources marked do not bring the measure up, and bring it down if any open block was marked |
| Interleaving.CalmRunMakesProgress | pkg/compactor/bucket_compactor.go:1067-1232 | the same over any number of iterations, with syncs, garbage collections and ripe jobs planned on the synced blocks |
| Interleaving.MarkingIsBounded | pkg/compactor/bucket_compactor.go:1027-1061 | however a run is cut into iterations, those in which an open block was marked are at most as many as the blocks weigh at the start |
| Iterations.UnmarkedIteration | pkg/compactor/bucket_compactor.go:1067-1232 | a concurrent iteration to be followed by another although no open block was marked had a job of barren blocks only among the ripe ones planned on the open blocks |
| Iterations.MayRepeatIff | pkg/compactor/bucket_compactor.go:1027-1232 | an iteration may lead back to where it began and be followed by another if and only if nothing must go as a duplicate and some ripe job planned on the bucket has barren blocks only |
| Iterations.MayGoOn | pkg/compactor/bucket_compactor.go:1027-1061 | from there the loop may go on for any number of iterations |
| Iterations.StuckInput | pkg/compactor/bucket_compactor.go:398-410 | for every configuration, a bucket with two blocks from which it does, where no mark fails |
| Iterations.NeedNotEndIff | pkg/compactor/bucket_compactor.go:1027-1061 | with the duplicates gone, the barren blocks leave work on their own if and only if, at some time and after some marks as not to be compacted, an iteration may lead back to where it began |
| Iterations.LoopEnds | pkg/compactor/bucket_compactor.go:1027-1232 | without such work the loop goes on after at most as many iterations as the blocks weigh, however its jobs are interleaved |
| MergeSpec.StreamsAreKept | pkg/blockbuilder/multi_cluster_merge.go:214-246 | every record is emitted exactly once, and each stream in its own order |
| MergeSpec.LeastHeadIsEmitted | pkg/blockbuilder/multi_cluster_merge.go:214-246 | at every point the least head by timestamp and cluster ID is emitted |
| MergeSpec.MergedIsMerge | pkg/blockbuilder/multi_cluster_merge.go:214-246 | the merge is an output with these two properties |
| MergeSpec.MergeIsUnique | pkg/blockbuilder/multi_cluster_merge.go:214-246 | only one output has these two properties, so neither the order of sources nor arrival times matter |
| MergeSpec.MergedIsSorted | pkg/blockbuilder/multi_cluster_merge.go:214-246 | sorted streams give a sorted merge |
| HeadHeap.SourceHeadHeap.Init | pkg/blockbuilder/multi_cluster_merge.go:230 | any items are arranged into a heap of the same items |
| HeadHeap.SourceHeadHeap.Push | pkg/blockbuilder/multi_cluster_merge_heap.go:39 | the item is added and the heap kept |
| HeadHeap.SourceHeadHeap.Pop | pkg/blockbuilder/multi_cluster_merge_heap.go:41-47 | takes out a least item by timestamp and cluster ID and keeps the rest as a heap |
| MultiCluster.RecordBatcher.Add | pkg/blockbuilder/multi_cluster_merge.go:162-171 | delivered and pending records together grow by the record; the batch is delivered exactly when full |
| MultiCluster.RecordBatcher.Flush | pkg/blockbuilder/multi_cluster_merge.go:173-183 | all pending records are delivered, or on failure a beginning of them |
| MultiCluster.KafkaClusterSource.Next | pkg/blockbuilder/multi_cluster_merge.go:200-212 | the next record of the stream, or none only when it is fully read |
| MultiCluster.MergeSourcesByTimestamp | pkg/blockbuilder/multi_cluster_merge.go:219-246 | success means that exactly the merge of the streams was handed on; what was delivered is always a beginning of it |
| ConsumeJob.ConsumePartitionSection | pkg/blockbuilder/blockbuilder.go:457-598 | success means that exactly the records from start up to end were consumed and one at end-1 exists; otherwise a beginning of them |
| ConsumeJob.ActiveRanges | pkg/blockbuilder/multi_cluster_merge.go:58-69 | fails exactly when a cluster is not configured; else gives the non-empty ranges, each once |
| ConsumeJob.ConsumeMultiCluster | pkg/blockbuilder/multi_cluster_merge.go:49-130 | success means that the consumer got exactly the merge of the wanted records, failure that it got a beginning of it, and nothing for unknown clusters |
| AlertmanagerStop.StepKeepsInv | pkg/alertmanager/alertmanager.go:335-493 | every step of both calls and of their goroutines keeps the invariant |
| AlertmanagerStop.AtMostOneUncancelled | pkg/alertmanager/alertmanager.go:335-466 | in every run at most one inhibitor is running uncancelled, the last one made |
| AlertmanagerStop.NothingRunsAfterStop | pkg/alertmanager/alertmanager.go:469-493 | once Stop has returned no inhibitor runs uncancelled or can start, ever after |
| AlertmanagerStop.DispatchersEndAfterStop | pkg/alertmanager/alertmanager.go:469-493 | and every dispatcher is cancelled |
| AlertmanagerStop.BarrierGoesOn | pkg/alertmanager/alertmanager.go:429-446 | which step is possible at the load barrier: ApplyConfig goes on if loading is done, else the dispatcher does, unless it was refused, and then Stop does until it is done |
| AlertmanagerStop.SomeStepIsPossible | pkg/alertmanager/alertmanager.go:335-493 | as long as a call has not returned, some step is possible |
| AlertmanagerStop.NoCallBlocksForever | pkg/alertmanager/alertmanager.go:335-493 | from every reachable state all runs without new calls are finite, and end with all calls returned |

## Left out

- BucketCompaction.BucketCompactor.RunCompactionJob: runs one job at a time, on what the job object holds, which nothing changes by then; the concurrency of jobs, and uploads in parallel within a job, are in the protocol, whose steps interleave freely.
- BucketCompaction.BucketCompactor.HandleKnownErrors: without the repair of blocks with chunks outside their range, which rebuilds and replaces a block through code of its own.
- BucketCompaction.BucketCompactor.Compact: on buckets in which barren blocks leave no work on their own, because with such work the loop need not end (NeedNotEndIff); CompactWhileLet has the other buckets.
- BucketCompaction.BucketCompactor.CompactWhileLet: stops after a given number of iterations with stuck jobs, where the original goes on until it is stopped.
- BucketCompaction.BucketCompactor.RunJobs: one job after the other, in any order, any of them skipped, which covers ownership, waiting periods, the time limit and both job orders; their concurrency is in CompactionRun, Interleaving and Iterations.
- Planner.SortMetasByMinTime: leaves open how blocks that start together are ordered, as nothing proved depends on it.
- JobOrder.OneSmallestRangeOrder: compares keys as sequences of characters.
- JobOrder.GroupsHaveDistinctKeys: supposes, like GroupKeysAreDistinct, that the label hash tells the main groups apart and that shard labels have no hyphen.
- Jobs.GroupKeysAreDistinct: supposes that the label hash tells the main groups apart and that shard labels have no hyphen.
- ConsumeJob.ConsumeMultiCluster: the producers' channels are modelled by what goes through them, so the buffer sizes and the choice between several errors are not there.
- MultiCluster.RecordBatcher.Add: without the early head compaction after a flush, which does not touch the records.
- Interleaving.InterleavedJobsMakeProgress: without new blocks from outside, which bring the measure up, and without jobs that stop between their first upload and the marks, which end the iteration with an error.
- Iterations.LoopEnds: of iterations that succeed, one right after the other; one that fails ends the loop in the original.
- The chunk and index handling of the TSDB library.
- Several compactors on one tenant with different views of the ring, retention, and blocks uploaded by users.
- Object storage, downloads, health checks, index headers, local directories, metrics and logs.
- Overflow of 64-bit times, and Kafka, HTTP and gRPC clients.
- Templates, integrations, silences and state replication of the Alertmanager, and building the pipeline in ApplyConfig.
