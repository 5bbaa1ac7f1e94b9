/** Reading a section of a partition up to an end offset, and consuming all sections of a job. */
module ConsumeJob {
  import opened Sorting
  import opened Sequences
  import opened MergeSpec
  import opened MultiCluster

  const MERGE_MAX_BATCH_RECORDS: int := 1000

  /** What one poll of a Kafka client gives. */
  datatype Poll = Poll(failed: bool, records: seq<Record>)

  datatype OffsetRange = OffsetRange(start: int, end: int)

  predicate Increasing(log: seq<Record>) {
    forall i, j :: 0 <= i < j < |log| ==> log[i].offset < log[j].offset
  }

  function AtLeast(start: int): Record -> bool {
    (r: Record) => r.offset >= start
  }

  function Below(end: int): Record -> bool {
    (r: Record) => r.offset < end
  }

  function Inside(start: int, end: int): Record -> bool {
    (r: Record) => start <= r.offset < end
  }

  /** The records of the log with offsets from start up to end, which is not included. */
  function Section(log: seq<Record>, start: int, end: int): seq<Record> {
    Keep(log, Inside(start, end))
  }

  function Polled(polls: seq<Poll>): seq<Record> {
    if polls == [] then [] else Polled(polls[..|polls| - 1]) + polls[|polls| - 1].records
  }

  /** The polls give the records of the log in order, beginning at start. Offsets may have gaps. */
  ghost predicate Delivers(log: seq<Record>, start: int, polls: seq<Poll>) {
    Increasing(log) && Polled(polls) <= Keep(log, AtLeast(start))
  }

  /** The number of records before the first at or after end. */
  function Cut(s: seq<Record>, end: int): (n: nat)
    ensures n <= |s| && (forall i :: 0 <= i < n ==> s[i].offset < end) && (n < |s| ==> s[n].offset >= end)
  {
    if s == [] || s[0].offset >= end then 0 else 1 + Cut(s[1..], end)
  }

  lemma {:induction false} KeepIncreasing(s: seq<Record>, p: Record -> bool)
    requires Increasing(s)
    ensures Increasing(Keep(s, p))
  {
    if s != [] {
      var init := s[..|s| - 1];
      KeepIncreasing(init, p);
      forall i | 0 <= i < |Keep(init, p)| ensures Keep(init, p)[i].offset < s[|s| - 1].offset {
        KeepMember(init, p, Keep(init, p)[i]);
      }
    }
  }

  lemma {:induction false} KeepAll(s: seq<Record>, p: Record -> bool)
    requires forall r :: r in s ==> p(r)
    ensures Keep(s, p) == s
  {
    if s != [] {
      var init, last := s[..|s| - 1], s[|s| - 1];
      assert s == init + [last] && last in s;
      KeepAll(init, p);
    }
  }

  lemma {:induction false} KeepOfParts(a: seq<Record>, b: seq<Record>, p: Record -> bool)
    ensures Keep(a + b, p) == Keep(a, p) + Keep(b, p)
    decreases |b|
  {
    if b == [] {
      assert a + b == a;
    } else {
      var init := b[..|b| - 1];
      KeepOfParts(a, init, p);
      assert (a + b)[..|a + b| - 1] == a + init;
    }
  }

  /** The section is the beginning of what comes from start on. */
  lemma SectionIsCut(log: seq<Record>, start: int, end: int)
    requires Increasing(log)
    ensures var flow := Keep(log, AtLeast(start));
            Increasing(flow) && Section(log, start, end) == flow[..Cut(flow, end)]
  {
    var flow := Keep(log, AtLeast(start));
    var n := Cut(flow, end);
    KeepIncreasing(log, AtLeast(start));
    KeepTwice(log, AtLeast(start), Below(end), Inside(start, end));
    assert flow == flow[..n] + flow[n..];
    KeepOfParts(flow[..n], flow[n..], Below(end));
    KeepAll(flow[..n], Below(end));
    KeepNone(flow[n..], Below(end));
  }

  /** The records of a fetch before the end offset. */
  method RecordsBefore(records: seq<Record>, end: int) returns (some: seq<Record>)
    ensures some == records[..Cut(records, end)]
  {
    some := [];
    for i := 0 to |records|
      invariant some == records[..i] && Cut(records, end) >= i
    {
      CutFrom(records, end, i);
      if records[i].offset >= end {
        return;
      }
      some := some + [records[i]];
    }
  }

  lemma CutFrom(s: seq<Record>, end: int, i: nat)
    requires i < |s| && i <= Cut(s, end)
    ensures Cut(s, end) == i <==> s[i].offset >= end
  {
  }

  lemma {:induction false} PolledPrefix(polls: seq<Poll>, k: nat)
    requires k <= |polls|
    ensures Polled(polls[..k]) <= Polled(polls)
    decreases |polls|
  {
    if k < |polls| {
      PolledPrefix(polls[..|polls| - 1], k);
      assert polls[..|polls| - 1][..k] == polls[..k];
    } else {
      assert polls[..k] == polls;
    }
  }

  /** What is consumed of the first k polls. */
  function Taken(polls: seq<Poll>, k: nat, end: int): seq<Record>
    requires k <= |polls|
  {
    Polled(polls[..k])[..Cut(Polled(polls[..k]), end)]
  }

  /** The offset of the last record, or the one before start. */
  function LastOffset(taken: seq<Record>, start: int): int {
    if taken == [] then start - 1 else taken[|taken| - 1].offset
  }

  /** The next poll continues where the last one ended. */
  lemma NextPoll(polls: seq<Poll>, k: nat, flow: seq<Record>, end: int)
    requires k < |polls| && Polled(polls) <= flow && Increasing(flow)
    ensures Taken(polls, k + 1, end) == Taken(polls, k, end) + polls[k].records[..Cut(polls[k].records, end)]
  {
    PolledPrefix(polls, k);
    PolledPrefix(polls, k + 1);
    assert polls[..k + 1][..k] == polls[..k];
    var a, c := Polled(polls[..k]), polls[k].records;
    assert Polled(polls[..k + 1]) == a + c;
    CutOfParts(a, c, end);
  }

  lemma TakenIsPrefix(polls: seq<Poll>, k: nat, flow: seq<Record>, end: int)
    requires k <= |polls| && Polled(polls) <= flow && Increasing(flow)
    ensures Taken(polls, k, end) <= flow[..Cut(flow, end)]
  {
    PolledPrefix(polls, k);
    CutOfPrefix(Polled(polls[..k]), flow, end);
  }

  lemma {:induction false} CutIs(s: seq<Record>, end: int, n: nat)
    requires n <= |s| && (forall i :: 0 <= i < n ==> s[i].offset < end) && (n < |s| ==> s[n].offset >= end)
    ensures Cut(s, end) == n
  {
    if n > 0 { CutIs(s[1..], end, n - 1); }
  }

  lemma {:induction false} CutIsNotBefore(s: seq<Record>, end: int, n: nat)
    requires n <= |s| && forall i :: 0 <= i < n ==> s[i].offset < end
    ensures Cut(s, end) >= n
  {
    if n > 0 { CutIsNotBefore(s[1..], end, n - 1); }
  }

  /** Once a record is at or after the end, all later ones are. */
  lemma CutOfParts(a: seq<Record>, b: seq<Record>, end: int)
    requires Increasing(a + b)
    ensures Cut(a + b, end) == Cut(a, end) + Cut(b, end)
    ensures (a + b)[..Cut(a + b, end)] == a[..Cut(a, end)] + b[..Cut(b, end)]
  {
    var s, m := a + b, Cut(a, end);
    if m < |a| {
      assert s[m] == a[m] && (|b| > 0 ==> s[|a|] == b[0]);
      CutIs(b, end, 0);
      CutIs(s, end, m);
    } else {
      var n := m + Cut(b, end);
      forall i | 0 <= i < n ensures s[i].offset < end { assert s[i] == if i < |a| then a[i] else b[i - |a|]; }
      assert n < |s| ==> s[n] == b[Cut(b, end)];
      CutIs(s, end, n);
    }
  }

  /** Reads up to the end offset. Succeeds only once all records before it were consumed; the polls may
      stop at any point. */
  method ConsumePartitionSection(polls: seq<Poll>, consumer: RecordConsumer, start: int, end: int,
                                 ghost log: seq<Record>) returns (ok: bool)
    requires Delivers(log, start, polls)
    modifies consumer
    ensures old(consumer.received) <= consumer.received <= old(consumer.received) + Section(log, start, end)
    ensures ok ==> consumer.received == old(consumer.received) + Section(log, start, end)
    ensures ok && start < end ==> exists r :: r in log && r.offset == end - 1
  {
    if start >= end {
      KeepNone(log, Inside(start, end));
      return true;
    }
    ghost var taken := (k: nat) requires k <= |polls| => Taken(polls, k, end);
    SectionIsCut(log, start, end);
    PollsAdvance(polls, Keep(log, AtLeast(start)), end);
    ghost var k;
    ok, k := ReadUntil(polls, consumer, start, end, taken, Section(log, start, end));
    if ok {
      AllConsumed(taken(k), Keep(log, AtLeast(start)), start, end);
      KeepMembers(log, AtLeast(start));
    }
  }

  /** The loop. taken says what is consumed of the first k polls, all of it of the section. */
  method ReadUntil(polls: seq<Poll>, consumer: RecordConsumer, start: int, end: int, ghost taken: nat --> seq<Record>,
                   ghost section: seq<Record>)
    returns (ok: bool, ghost k: nat)
    requires forall i: nat :: i <= |polls| ==> taken.requires(i) && taken(i) <= section
    requires taken(0) == [] && forall i: nat :: i < |polls| ==>
        taken(i + 1) == taken(i) + polls[i].records[..Cut(polls[i].records, end)]
    modifies consumer
    ensures old(consumer.received) <= consumer.received <= old(consumer.received) + section
    ensures ok ==>
        k <= |polls| && consumer.received == old(consumer.received) + taken(k) && LastOffset(taken(k), start) >= end - 1
  {
    var lastConsumedOffset := start - 1;
    var n: nat := 0;
    k := 0;
    while lastConsumedOffset < end - 1
      invariant n == k <= |polls| && lastConsumedOffset == LastOffset(taken(k), start)
      invariant consumer.received == old(consumer.received) + taken(k)
      decreases |polls| - n
    {
      assert taken(k) <= section;
      if n == |polls| || polls[n].failed {
        return false, k; // cancelled, or a failed fetch
      }
      var records := RecordsBefore(polls[n].records, end);
      assert taken(k + 1) == taken(k) + records;
      if records != [] {
        lastConsumedOffset := records[|records| - 1].offset;
      }
      ok := consumer.Consume(records);
      StillABeginning(old(consumer.received), taken(k), records, consumer.received, section);
      n, k := n + 1, k + 1;
      if !ok {
        return;
      }
    }
    assert taken(k) <= section;
    ok := true;
  }

  lemma PollsAdvance(polls: seq<Poll>, flow: seq<Record>, end: int)
    requires Polled(polls) <= flow && Increasing(flow)
    ensures Taken(polls, 0, end) == [] && forall k: nat :: k <= |polls| ==>
        Taken(polls, k, end) <= flow[..Cut(flow, end)]
    ensures forall k: nat :: k < |polls| ==>
        Taken(polls, k + 1, end) == Taken(polls, k, end) + polls[k].records[..Cut(polls[k].records, end)]
  {
    forall k: nat | k <= |polls| ensures Taken(polls, k, end) <= flow[..Cut(flow, end)] {
      TakenIsPrefix(polls, k, flow, end);
    }
    forall k: nat | k < |polls|
      ensures Taken(polls, k + 1, end) == Taken(polls, k, end) + polls[k].records[..Cut(polls[k].records, end)]
    {
      NextPoll(polls, k, flow, end);
    }
  }

  lemma CutOfPrefix(a: seq<Record>, flow: seq<Record>, end: int)
    requires a <= flow && Increasing(flow)
    ensures Cut(a, end) <= Cut(flow, end) && a[..Cut(a, end)] <= flow[..Cut(flow, end)]
  {
    forall i | 0 <= i < Cut(a, end) ensures flow[i].offset < end { assert flow[i] == a[i]; }
    CutIsNotBefore(flow, end, Cut(a, end));
  }

  /** When the last record before the end was consumed, all were. */
  lemma AllConsumed(taken: seq<Record>, flow: seq<Record>, start: int, end: int)
    requires Increasing(flow) && start < end && taken <= flow[..Cut(flow, end)] && LastOffset(taken, start) >= end - 1
    ensures taken == flow[..Cut(flow, end)] && exists r :: r in flow && r.offset == end - 1
  {
    var n := |taken|;
    assert flow[n - 1] == taken[n - 1] && flow[n - 1].offset == end - 1;
    CutIs(flow, end, n);
  }

  lemma StillABeginning(base: seq<Record>, taken: seq<Record>, records: seq<Record>, got: seq<Record>,
                        section: seq<Record>)
    requires taken + records <= section && base + taken <= got <= base + taken + records
    ensures base <= got <= base + section
  {
  }

  // ---------- all sections of a job ----------

  predicate Active(ranges: map<int, OffsetRange>, c: int) {
    c in ranges && ranges[c].start < ranges[c].end
  }

  /** The records of cluster c to consume. */
  function SectionOf(ranges: map<int, OffsetRange>, logs: seq<seq<Record>>, c: int): seq<Record> {
    if c in ranges && 0 <= c < |logs| then Section(logs[c], ranges[c].start, ranges[c].end) else []
  }

  /** The records to consume, by cluster. */
  function Wanted(ranges: map<int, OffsetRange>, logs: seq<seq<Record>>): Streams {
    map c | c in ranges && 0 <= c < |logs| && ranges[c].start < ranges[c].end :: SectionOf(ranges, logs, c)
  }

  /** The polls of cluster c give its log. */
  ghost predicate DeliversFor(ranges: map<int, OffsetRange>, logs: seq<seq<Record>>, polls: seq<seq<Poll>>, c: int) {
    c in ranges && 0 <= c < |logs| == |polls| && Delivers(logs[c], ranges[c].start, polls[c])
  }

  /** All clusters of the ranges are configured. */
  predicate Known(ranges: map<int, OffsetRange>, clusters: nat) {
    forall c :: c in ranges ==> 0 <= c < clusters
  }

  /** The clusters whose range is not empty, unless some cluster is not configured. */
  method ActiveRanges(ranges: map<int, OffsetRange>, clusters: nat) returns (active: seq<int>, ok: bool)
    ensures ok <==> Known(ranges, clusters)
    ensures ok ==> NoRepeats(active) && forall c :: c in active <==> Active(ranges, c)
  {
    active := [];
    var ids := KeysInSomeOrder(ranges);
    for i := 0 to |ids|
      invariant NoRepeats(active) && forall c :: c in active <==> Active(ranges, c) && c in ids[..i]
      invariant forall k :: 0 <= k < i ==> 0 <= ids[k] < clusters
    {
      var c := ids[i];
      assert c in ids && ids[..i + 1] == ids[..i] + [c];
      if c < 0 || c >= clusters {
        return active, false;
      }
      assert c !in ids[..i];
      if ranges[c].start < ranges[c].end {
        active := active + [c];
      }
    }
    assert ids[..|ids|] == ids;
    forall c | c in ranges ensures 0 <= c < clusters { assert c in ids; }
    ok := true;
  }

  /** Consumes all sections: success means that the consumer got exactly the merge of the wanted
      records, failure that it got a beginning of it. */
  method ConsumeMultiCluster(ranges: map<int, OffsetRange>, polls: seq<seq<Poll>>, consumer: RecordConsumer,
                             ghost logs: seq<seq<Record>>)
    returns (ok: bool)
    requires |logs| == |polls| && forall c :: Active(ranges, c) && 0 <= c < |polls| ==>
        DeliversFor(ranges, logs, polls, c)
    modifies consumer
    ensures !Known(ranges, |polls|) ==> !ok && consumer.received == old(consumer.received)
    ensures old(consumer.received) <= consumer.received <= old(consumer.received) +
        Records(Merged(Wanted(ranges, logs)))
    ensures ok ==> consumer.received == old(consumer.received) + Records(Merged(Wanted(ranges, logs)))
  {
    var active;
    active, ok := ActiveRanges(ranges, |polls|);
    if !ok {
      return;
    }
    ghost var s := Wanted(ranges, logs);
    assert forall c :: c in s <==> c in active;
    if |active| == 0 {
      NoneWanted(s);
      return;
    }
    if |active| == 1 {
      var c := active[0];
      OneWanted(s, c, active);
      ok := ConsumePartitionSection(polls[c], consumer, ranges[c].start, ranges[c].end, logs[c]);
      return;
    }
    ok := ConsumeMerged(ranges, polls, active, consumer, logs);
  }

  /** Several sections: the producers, and the merge. */
  method ConsumeMerged(ranges: map<int, OffsetRange>, polls: seq<seq<Poll>>, active: seq<int>, consumer: RecordConsumer,
                       ghost logs: seq<seq<Record>>)
    returns (ok: bool)
    requires NoRepeats(active) && (forall c :: c in active <==> Active(ranges, c)) && forall c :: c in active ==>
        DeliversFor(ranges, logs, polls, c)
    modifies consumer
    ensures old(consumer.received) <= consumer.received <= old(consumer.received) +
        Records(Merged(Wanted(ranges, logs)))
    ensures ok ==> consumer.received == old(consumer.received) + Records(Merged(Wanted(ranges, logs)))
  {
    var sources, producersOk := Produce(ranges, polls, active, logs);
    var batcher := new RecordBatcher(consumer, MERGE_MAX_BATCH_RECORDS);
    assert batcher.Handed() == consumer.received;
    ok := MergeSourcesByTimestamp(sources, batcher, Wanted(ranges, logs));
    if ok {
      ok := batcher.Flush();
    }
    ok := ok && producersOk;
  }

  lemma NoneWanted(s: Streams)
    requires forall c :: c !in s
    ensures Merged(s) == []
  {
    forall c ensures c !in LiveOnes(s) { assert c !in s; }
    NoMember(LiveOnes(s));
  }

  lemma OneWanted(s: Streams, c: int, active: seq<int>)
    requires (forall d :: d in s <==> d in active) && active == [c]
    ensures c in s && Records(Merged(s)) == s[c]
  {
    assert c in active;
    forall d ensures d in s.Keys <==> d == c { assert d in s <==> d in active; }
    assert s == map[c := s[c]];
    MergedOfOne(c, s[c]);
  }

  /** The producers: one for each cluster, with a channel to the merge. */
  method Produce(ranges: map<int, OffsetRange>, polls: seq<seq<Poll>>, active: seq<int>, ghost logs: seq<seq<Record>>)
    returns (sources: seq<KafkaClusterSource>, ok: bool)
    requires NoRepeats(active) && (forall c :: c in active <==> Active(ranges, c)) && forall c :: c in active ==>
        DeliversFor(ranges, logs, polls, c)
    ensures AllValid(sources) && NoRepeats(IDs(sources)) &&
        StreamsOf(IDs(sources), Rests(sources), Wanted(ranges, logs))
    ensures forall i :: 0 <= i < |sources| ==> fresh(sources[i])
  {
    sources, ok := [], true;
    for i := 0 to |active|
      invariant |sources| == i && AllValid(sources) && forall k :: 0 <= k < i ==> fresh(sources[k])
      invariant forall k :: 0 <= k < i ==>
          sources[k].clusterID == active[k] && sources[k].rest == SectionOf(ranges, logs, active[k])
    {
      var c := active[i];
      assert c in active;
      var source, done := ProduceOne(ranges[c], polls[c], c, logs[c]);
      sources, ok := sources + [source], ok && done;
    }
    AllProduced(ranges, logs, active, IDs(sources), Rests(sources));
  }

  method ProduceOne(range: OffsetRange, polls: seq<Poll>, c: int, ghost log: seq<Record>)
      returns (source: KafkaClusterSource, done: bool)
    requires Delivers(log, range.start, polls)
    ensures fresh(source) && source.Valid() && source.clusterID == c &&
        source.rest == Section(log, range.start, range.end)
  {
    var channel := new RecordConsumer();
    done := ConsumePartitionSection(polls, channel, range.start, range.end, log);
    ghost var section := Section(log, range.start, range.end);
    assert [] + section == section;
    source := new KafkaClusterSource(c, channel.received, !done, section);
  }

  lemma AllProduced(ranges: map<int, OffsetRange>, logs: seq<seq<Record>>, active: seq<int>, ids: seq<int>,
                    rests: seq<seq<Record>>)
    requires NoRepeats(active) && (forall c :: c in active <==> Active(ranges, c)) && forall c :: c in active ==>
        0 <= c < |logs|
    requires ids == active && |rests| == |ids| && forall k :: 0 <= k < |ids| ==>
        rests[k] == SectionOf(ranges, logs, active[k])
    ensures NoRepeats(ids) && StreamsOf(ids, rests, Wanted(ranges, logs))
  {
    forall k | 0 <= k < |ids| ensures ids[k] in Wanted(ranges, logs) && Wanted(ranges, logs)[ids[k]] == rests[k] {
      assert active[k] in active;
    }
  }
}
