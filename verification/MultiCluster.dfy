/** Consuming a job's offset ranges from several Kafka clusters: one producer for each, merged by
    timestamp and handed to the consumer in batches. */
module MultiCluster {
  import opened Util
  import opened Sorting
  import opened Sequences
  import opened MergeSpec
  import opened HeadHeap

  /** What receives the records. A call may fail at any record. */
  class RecordConsumer {
    var received: seq<Record>

    constructor ()
      ensures received == []
    {
      received := [];
    }

    method Consume(records: seq<Record>) returns (ok: bool)
      modifies this
      ensures old(received) <= received <= old(received) + records
      ensures ok ==> received == old(received) + records
    {
      for i := 0 to |records|
        invariant received == old(received) + records[..i]
      {
        if * {
          return false;
        }
        received := received + [records[i]];
      }
      ok := true;
    }
  }

  /** Collects records and forwards them in batches. */
  class RecordBatcher {
    const consumer: RecordConsumer
    const maxBatch: int
    var batch: seq<Record>

    constructor (consumer: RecordConsumer, maxBatch: int)
      ensures this.consumer == consumer && this.maxBatch == maxBatch && batch == []
    {
      this.consumer, this.maxBatch := consumer, maxBatch;
      batch := [];
    }

    /** All that was delivered or is going to be. */
    ghost function Handed(): seq<Record>
      reads this, consumer
    {
      consumer.received + batch
    }

    method Add(record: Record) returns (flushed: bool, ok: bool)
      modifies this, consumer
      ensures ok ==> Handed() == old(Handed()) + [record]
      ensures ok ==> (flushed <==> batch == []) && (flushed <==> |old(batch)| + 1 >= maxBatch)
      ensures old(consumer.received) <= consumer.received <= old(Handed()) + [record]
    {
      batch := batch + [record];
      if |batch| < maxBatch {
        return false, true;
      }
      ok := Flush();
      flushed := ok;
    }

    method Flush() returns (ok: bool)
      modifies this, consumer
      ensures ok ==> batch == [] && consumer.received == old(Handed())
      ensures !ok ==> batch == old(batch)
      ensures old(consumer.received) <= consumer.received <= old(Handed())
    {
      if |batch| == 0 {
        return true;
      }
      ok := consumer.Consume(batch);
      if ok {
        batch := [];
      }
    }
  }

  /** One cluster's records as they come through its channel, which is closed with an error or without
      one. Without an error, all of rest came through. */
  class KafkaClusterSource {
    const clusterID: int
    var records: seq<Record>
    var finalErr: bool
    ghost var rest: seq<Record>

    ghost predicate Valid()
      reads this
    {
      records <= rest && (!finalErr ==> records == rest)
    }

    constructor (clusterID: int, records: seq<Record>, finalErr: bool, ghost rest: seq<Record>)
      requires records <= rest && (!finalErr ==> records == rest)
      ensures Valid() && this.clusterID == clusterID && this.rest == rest
    {
      this.clusterID, this.records, this.finalErr := clusterID, records, finalErr;
      this.rest := rest;
    }

    /** The next record, or none once drained; an error when closed with one, or when cancelled. */
    method Next() returns (record: Option<Record>, ok: bool)
      requires Valid()
      modifies this
      ensures Valid() && finalErr == old(finalErr)
      ensures ok && record.Some? ==> old(rest) == [record.value] + rest
      ensures ok && record.None? ==> old(rest) == rest == []
      ensures !ok ==> rest == old(rest)
    {
      if * {
        return None, false;
      }
      if records == [] {
        return None, !finalErr;
      }
      record, ok := Some(records[0]), true;
      records, rest := records[1..], rest[1..];
    }
  }

  // ---------- the merge ----------

  ghost predicate AllValid(sources: seq<KafkaClusterSource>)
    reads sources
  {
    forall i :: 0 <= i < |sources| ==> sources[i].Valid()
  }

  function IDs(sources: seq<KafkaClusterSource>): seq<int> {
    seq(|sources|, i requires 0 <= i < |sources| => sources[i].clusterID)
  }

  /** What each source has still to give. */
  ghost function Rests(sources: seq<KafkaClusterSource>): seq<seq<Record>>
    reads sources
  {
    seq(|sources|, i requires 0 <= i < |sources| reads sources => sources[i].rest)
  }

  /** s are the streams of the clusters. */
  ghost predicate StreamsOf(ids: seq<int>, rests: seq<seq<Record>>, s: Streams) {
    |ids| == |rests| && (forall i :: 0 <= i < |ids| ==> ids[i] in s && s[ids[i]] == rests[i]) && forall c :: c in s ==>
    c in ids
  }

  /** The heap has exactly the heads held for the sources. */
  ghost predicate HeapHas(items: multiset<SourceHead>, held: map<nat, SourceHead>) {
    forall x :: items[x] == if x.sourceIndex in held && held[x.sourceIndex] == x then 1 else 0
  }

  /** What is left to emit of source i's stream: its head, if one is held, and what the source has still
      to give. */
  predicate Slot(ids: seq<int>, rests: seq<seq<Record>>, n: nat, held: map<nat, SourceHead>, s: Streams, i: nat)
    requires i < |ids| == |rests|
  {
    ids[i] in s &&
    if i >= n then s[ids[i]] == rests[i]
    else if i in held then held[i] == SourceHead(held[i].rec, ids[i], i) && s[ids[i]] == [held[i].rec] + rests[i]
    else s[ids[i]] == []
  }

  /** The streams s are what is left to emit. Of the first n sources, those that are not drained have
      their head held; the others were not asked yet. */
  ghost predicate Holding(ids: seq<int>, rests: seq<seq<Record>>, n: nat, held: map<nat, SourceHead>, s: Streams) {
    n <= |ids| == |rests| && NoRepeats(ids) && (forall i: nat :: i in held ==> i < n) &&
    (forall c :: c in s ==> c in ids) &&
    forall i: nat :: i < |ids| ==> Slot(ids, rests, n, held, s, i)
  }

  lemma StartHolding(ids: seq<int>, rests: seq<seq<Record>>, s: Streams)
    requires NoRepeats(ids) && StreamsOf(ids, rests, s)
    ensures Holding(ids, rests, 0, map[], s)
  {
  }

  /** The next source had a record. */
  lemma FirstHead(ids: seq<int>, rests: seq<seq<Record>>, n: nat, held: map<nat, SourceHead>, s: Streams,
                  record: Record, rest: seq<Record>)
    requires Holding(ids, rests, n, held, s) && n < |ids| && rests[n] == [record] + rest
    ensures Holding(ids, rests[n := rest], n + 1, held[n := SourceHead(record, ids[n], n)], s)
  {
    var held', rests', n' := held[n := SourceHead(record, ids[n], n)], rests[n := rest], n + 1;
    forall i: nat | i < |ids| ensures Slot(ids, rests', n', held', s, i) { assert Slot(ids, rests, n, held, s, i); }
  }

  /** The next source had none. */
  lemma NoFirstHead(ids: seq<int>, rests: seq<seq<Record>>, n: nat, held: map<nat, SourceHead>, s: Streams)
    requires Holding(ids, rests, n, held, s) && n < |ids| && rests[n] == []
    ensures Holding(ids, rests, n + 1, held, s)
  {
    var n' := n + 1;
    forall i: nat | i < |ids| ensures Slot(ids, rests, n', held, s, i) { assert Slot(ids, rests, n, held, s, i); }
  }

  lemma HeldIsHead(ids: seq<int>, rests: seq<seq<Record>>, held: map<nat, SourceHead>, s: Streams, i: nat)
    requires Holding(ids, rests, |ids|, held, s) && i in held
    ensures i < |ids| && held[i].sourceIndex == i && held[i].clusterID == ids[i] && Live(s, ids[i])
    ensures Head(s, ids[i]) == Tag(held[i]) && s[ids[i]][1..] == rests[i]
  {
    assert Slot(ids, rests, |ids|, held, s, i);
  }

  /** A head was emitted, and its source drained. */
  lemma HeadGone(ids: seq<int>, rests: seq<seq<Record>>, held: map<nat, SourceHead>, s: Streams, i: nat)
    requires Holding(ids, rests, |ids|, held, s) && i in held && Live(s, ids[i]) && rests[i] == []
    ensures Holding(ids, rests, |ids|, held - {i}, Advance(s, ids[i]))
  {
    HeldIsHead(ids, rests, held, s, i);
    forall j: nat | j < |ids| ensures Slot(ids, rests, |ids|, held - {i}, Advance(s, ids[i]), j) {
      assert Slot(ids, rests, |ids|, held, s, j);
    }
  }

  /** A head was emitted, and replaced by the next record of its source. */
  lemma HeadReplaced(ids: seq<int>, rests: seq<seq<Record>>, held: map<nat, SourceHead>, s: Streams, i: nat,
                     record: Record, rest: seq<Record>)
    requires Holding(ids, rests, |ids|, held, s) && i in held && Live(s, ids[i]) && rests[i] == [record] + rest
    ensures Holding(ids, rests[i := rest], |ids|, held[i := SourceHead(record, ids[i], i)], Advance(s, ids[i]))
  {
    HeldIsHead(ids, rests, held, s, i);
    var held', rests', s' := held[i := SourceHead(record, ids[i], i)], rests[i := rest], Advance(s, ids[i]);
    forall j: nat | j < |ids| ensures Slot(ids, rests', |ids|, held', s', j) {
      assert Slot(ids, rests, |ids|, held, s, j);
    }
  }

  /** The least head of the heap is the least head of the streams. */
  lemma LeastOfHeads(ids: seq<int>, rests: seq<seq<Record>>, held: map<nat, SourceHead>, s: Streams, i: nat)
    requires Holding(ids, rests, |ids|, held, s) && i in held && forall j :: j in held ==> Le(held[i], held[j])
    ensures i < |ids| && IsLeast(s, ids[i]) && Head(s, ids[i]) == Tag(held[i])
  {
    HeldIsHead(ids, rests, held, s, i);
    forall d | Live(s, d) ensures NotAfter(Head(s, ids[i]), Head(s, d)) {
      var j: nat :| j < |ids| && ids[j] == d;
      assert Slot(ids, rests, |ids|, held, s, j);
      HeldIsHead(ids, rests, held, s, j);
      assert Le(held[i], held[j]);
    }
  }

  /** No head is held only when nothing is left. */
  lemma NothingHeld(ids: seq<int>, rests: seq<seq<Record>>, held: map<nat, SourceHead>, s: Streams)
    requires Holding(ids, rests, |ids|, held, s) && HeapHas(multiset{}, held)
    ensures Merged(s) == []
  {
    forall i: nat ensures i !in held {
      if i in held {
        HeldIsHead(ids, rests, held, s, i);
      }
    }
    forall c ensures c !in LiveOnes(s) {
      if c in s {
        var j: nat :| j < |ids| && ids[j] == c;
        assert Slot(ids, rests, |ids|, held, s, j);
      }
    }
    NoMember(LiveOnes(s));
  }

  lemma HeapHasMore(items: multiset<SourceHead>, held: map<nat, SourceHead>, x: SourceHead)
    requires HeapHas(items, held) && x.sourceIndex !in held
    ensures HeapHas(items + multiset{x}, held[x.sourceIndex := x])
  {
  }

  lemma HeapHasFewer(items: multiset<SourceHead>, held: map<nat, SourceHead>, x: SourceHead)
    requires HeapHas(items, held) && x in items
    ensures x.sourceIndex in held && held[x.sourceIndex] == x && HeapHas(items - multiset{x}, held - {x.sourceIndex})
  {
    assert items[x] == 1;
  }

  /** The first loop: one head for each source that has one. */
  method Prime(sources: seq<KafkaClusterSource>, ghost s: Streams)
      returns (heads: SourceHeadHeap, ok: bool, ghost held: map<nat, SourceHead>)
    requires AllValid(sources) && NoRepeats(IDs(sources)) && StreamsOf(IDs(sources), Rests(sources), s)
    modifies sources
    ensures AllValid(sources) && fresh(heads)
    ensures ok ==> Holding(IDs(sources), Rests(sources), |sources|, held, s)
    ensures ok ==> HeapHas(multiset(heads.items), held) && Ordered(heads.items, 0, |heads.items|)
  {
    heads := new SourceHeadHeap();
    StartHolding(IDs(sources), Rests(sources), s);
    ok, held := FirstOfEach(sources, heads, s);
    if ok {
      heads.Init();
    }
  }

  method FirstOfEach(sources: seq<KafkaClusterSource>, heads: SourceHeadHeap, ghost s: Streams)
      returns (ok: bool, ghost held: map<nat, SourceHead>)
    requires AllValid(sources) && Holding(IDs(sources), Rests(sources), 0, map[], s) && heads.items == []
    modifies sources, heads
    ensures AllValid(sources)
    ensures ok ==> Holding(IDs(sources), Rests(sources), |sources|, held, s) && HeapHas(multiset(heads.items), held)
  {
    held := map[];
    for i := 0 to |sources|
      invariant AllValid(sources) && Holding(IDs(sources), Rests(sources), i, held, s)
      invariant HeapHas(multiset(heads.items), held)
    {
      ok, held := FirstOf(sources, i, heads, held, s);
      if !ok {
        return;
      }
    }
    ok := true;
  }

  /** Asks a source for its first head. */
  method FirstOf(sources: seq<KafkaClusterSource>, i: nat, heads: SourceHeadHeap, ghost held: map<nat, SourceHead>,
                 ghost s: Streams)
    returns (ok: bool, ghost held': map<nat, SourceHead>)
    requires AllValid(sources) && i < |sources| && Holding(IDs(sources), Rests(sources), i, held, s) &&
        HeapHas(multiset(heads.items), held)
    modifies sources, heads
    ensures AllValid(sources)
    ensures ok ==> Holding(IDs(sources), Rests(sources), i + 1, held', s) && HeapHas(multiset(heads.items), held')
  {
    ghost var rests := Rests(sources);
    var record;
    record, ok := NextOf(sources, i);
    held' := held;
    if !ok {
      return;
    }
    if record.Some? {
      var x := SourceHead(record.value, sources[i].clusterID, i);
      HeapHasMore(multiset(heads.items), held, x);
      FirstHead(IDs(sources), rests, i, held, s, record.value, Rests(sources)[i]);
      heads.items, held' := heads.items + [x], held[i := x];
    } else {
      NoFirstHead(IDs(sources), rests, i, held, s);
    }
  }

  /** Asks one source, which leaves the others as they are. */
  method NextOf(sources: seq<KafkaClusterSource>, i: nat) returns (record: Option<Record>, ok: bool)
    requires AllValid(sources) && NoRepeats(IDs(sources)) && i < |sources|
    modifies sources
    ensures AllValid(sources) && |Rests(sources)| == |old(Rests(sources))| == |sources|
    ensures ok && record.Some? ==> old(Rests(sources))[i] == [record.value] + Rests(sources)[i]
    ensures ok && record.Some? ==> Rests(sources) == old(Rests(sources))[i := Rests(sources)[i]]
    ensures ok && record.None? ==> Rests(sources) == old(Rests(sources)) && Rests(sources)[i] == []
  {
    forall j | 0 <= j < |sources| && j != i ensures sources[j] != sources[i] {
      assert IDs(sources)[j] == sources[j].clusterID && IDs(sources)[i] == sources[i].clusterID;
    }
    record, ok := sources[i].Next();
  }

  /** Emits the records of all sources in order of timestamp and cluster ID, as far as it gets. */
  method MergeSourcesByTimestamp(sources: seq<KafkaClusterSource>, batcher: RecordBatcher, ghost s: Streams)
      returns (ok: bool)
    requires AllValid(sources) && NoRepeats(IDs(sources)) && StreamsOf(IDs(sources), Rests(sources), s)
    modifies sources, batcher, batcher.consumer
    ensures ok ==> batcher.Handed() == old(batcher.Handed()) + Records(Merged(s))
    ensures old(batcher.consumer.received) <= batcher.consumer.received <= old(batcher.Handed()) + Records(Merged(s))
  {
    var heads;
    ghost var held;
    heads, ok, held := Prime(sources, s);
    if ok {
      ok := EmitAll(sources, heads, batcher, held, s);
    }
  }

  /** The next record of the output, and what was handed on with it. */
  lemma OneMore(out: seq<Record>, done: nat, before: seq<Record>, merged: seq<Tagged>, t: Tagged, merged': seq<Tagged>)
    requires done <= |out| && Records(merged) == out[done..] && merged == [t] + merged'
    ensures done < |out| && Records(merged') == out[done + 1..] &&
        before + out[..done] + [t.rec] == before + out[..done + 1] <= before + out
  {
    assert Records(merged)[0] == t.rec && out[done] == out[done..][0];
    assert out == out[..done + 1] + out[done + 1..];
    forall i | 0 <= i < |merged'| ensures Records(merged')[i] == out[done + 1..][i] {
      assert Records(merged)[i + 1] == out[done..][i + 1];
    }
  }

  /** The second loop. */
  method EmitAll(sources: seq<KafkaClusterSource>, heads: SourceHeadHeap, batcher: RecordBatcher,
                 ghost h: map<nat, SourceHead>, ghost s: Streams)
    returns (ok: bool)
    requires AllValid(sources) && Holding(IDs(sources), Rests(sources), |sources|, h, s)
    requires HeapHas(multiset(heads.items), h) && Ordered(heads.items, 0, |heads.items|)
    modifies sources, heads, batcher, batcher.consumer
    ensures ok ==> batcher.Handed() == old(batcher.Handed()) + Records(Merged(s))
    ensures old(batcher.consumer.received) <= batcher.consumer.received <= old(batcher.Handed()) + Records(Merged(s))
  {
    ok := true;
    ghost var before, out, done := batcher.Handed(), Records(Merged(s)), 0;
    ghost var held, left := h, s;
    while |heads.items| > 0
      invariant ok && AllValid(sources) && Holding(IDs(sources), Rests(sources), |sources|, held, left)
      invariant HeapHas(multiset(heads.items), held) && Ordered(heads.items, 0, |heads.items|)
      invariant 0 <= done <= |out| && Records(Merged(left)) == out[done..] && batcher.Handed() == before + out[..done]
      invariant old(batcher.consumer.received) <= batcher.consumer.received
      decreases Size(left)
    {
      ghost var t, prior := Tagged(0, Record(0, 0, "")), left;
      ok, t, held, left := EmitNext(sources, heads, batcher, held, left);
      OneMore(out, done, before, Merged(prior), t, Merged(left));
      done := done + 1;
      if !ok {
        return;
      }
    }
    NothingHeld(IDs(sources), Rests(sources), held, left);
    assert out[..done] == out;
  }

  /** One turn of the loop: emits the next record of the merge. */
  method EmitNext(sources: seq<KafkaClusterSource>, heads: SourceHeadHeap, batcher: RecordBatcher,
                  ghost held: map<nat, SourceHead>, ghost s: Streams)
    returns (ok: bool, ghost t: Tagged, ghost held': map<nat, SourceHead>, ghost s': Streams)
    requires AllValid(sources) && Holding(IDs(sources), Rests(sources), |sources|, held, s)
    requires heads.items != [] && HeapHas(multiset(heads.items), held) && Ordered(heads.items, 0, |heads.items|)
    modifies sources, heads, batcher, batcher.consumer
    ensures Merged(s) == [t] + Merged(s') && Size(s') < Size(s)
    ensures old(batcher.consumer.received) <= batcher.consumer.received <= old(batcher.Handed()) + [t.rec]
    ensures ok ==> batcher.Handed() == old(batcher.Handed()) + [t.rec]
    ensures ok ==> AllValid(sources) && Holding(IDs(sources), Rests(sources), |sources|, held', s')
    ensures ok ==> HeapHas(multiset(heads.items), held') && Ordered(heads.items, 0, |heads.items|)
  {
    var head := TakeLeast(heads, IDs(sources), Rests(sources), held, s);
    t, s', held' := Tag(head), Advance(s, head.clusterID), held;
    var flushed;
    flushed, ok := batcher.Add(head.rec);
    if ok {
      ok, held' := Refill(sources, heads, head, held, s);
    }
  }

  /** Takes the head that comes next in the merge. */
  method TakeLeast(heads: SourceHeadHeap, ghost ids: seq<int>, ghost rests: seq<seq<Record>>,
                   ghost held: map<nat, SourceHead>, ghost s: Streams)
    returns (head: SourceHead)
    requires heads.items != [] && Ordered(heads.items, 0, |heads.items|) && HeapHas(multiset(heads.items), held) &&
        Holding(ids, rests, |ids|, held, s)
    modifies heads
    ensures Ordered(heads.items, 0, |heads.items|)
    ensures head.sourceIndex in held && held[head.sourceIndex] == head &&
        HeapHas(multiset(heads.items), held - {head.sourceIndex})
    ensures head.sourceIndex < |ids| && head.clusterID == ids[head.sourceIndex] && Live(s, head.clusterID)
    ensures Merged(s) == [Tag(head)] + Merged(Advance(s, head.clusterID)) && Size(Advance(s, head.clusterID)) < Size(s)
  {
    ghost var items := multiset(heads.items);
    head := heads.Pop();
    assert head in items;
    HeapHasFewer(items, held, head);
    forall j | j in held ensures Le(head, held[j]) {
      HeldIsHead(ids, rests, held, s, j);
      assert items[held[j]] == 1;
    }
    HeldIsHead(ids, rests, held, s, head.sourceIndex);
    LeastOfHeads(ids, rests, held, s, head.sourceIndex);
    MergeStep(s, head.clusterID);
  }

  /** Asks the source of the head just emitted for its next one. */
  method Refill(sources: seq<KafkaClusterSource>, heads: SourceHeadHeap, head: SourceHead,
                ghost held: map<nat, SourceHead>, ghost s: Streams)
    returns (ok: bool, ghost held': map<nat, SourceHead>)
    requires AllValid(sources) && Holding(IDs(sources), Rests(sources), |sources|, held, s)
    requires Ordered(heads.items, 0, |heads.items|) && HeapHas(multiset(heads.items), held - {head.sourceIndex})
    requires head.sourceIndex in held && head.sourceIndex < |sources| &&
        head.clusterID == IDs(sources)[head.sourceIndex] && Live(s, head.clusterID)
    modifies sources, heads
    ensures AllValid(sources) && Ordered(heads.items, 0, |heads.items|)
    ensures ok ==>
        HeapHas(multiset(heads.items), held') &&
        Holding(IDs(sources), Rests(sources), |sources|, held', Advance(s, head.clusterID))
  {
    ghost var rests, i := Rests(sources), head.sourceIndex;
    var record;
    record, ok := NextOf(sources, head.sourceIndex);
    held' := held - {i};
    if !ok {
      return;
    }
    if record.Some? {
      var x := SourceHead(record.value, head.clusterID, head.sourceIndex);
      HeapHasMore(multiset(heads.items), held', x);
      HeadReplaced(IDs(sources), rests, held, s, i, record.value, Rests(sources)[i]);
      heads.Push(x);
      held' := held'[i := x];
      assert held' == held[i := x];
    } else {
      HeadGone(IDs(sources), rests, held, s, i);
    }
  }
}
