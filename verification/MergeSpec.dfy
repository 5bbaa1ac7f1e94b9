/** The merge of record streams by timestamp, as a function of the streams alone. */
module MergeSpec {
  import opened Sequences

  /** A record of a Kafka partition. */
  datatype Record = Record(timestamp: int, offset: int, value: string)

  datatype Tagged = Tagged(clusterID: int, rec: Record)

  type Streams = map<int, seq<Record>>

  /** Ordered by timestamp, then by cluster ID. */
  predicate NotAfter(a: Tagged, b: Tagged) {
    if a.rec.timestamp != b.rec.timestamp then a.rec.timestamp < b.rec.timestamp else a.clusterID <= b.clusterID
  }

  predicate Live(s: Streams, c: int) {
    c in s && s[c] != []
  }

  function Head(s: Streams, c: int): Tagged
    requires Live(s, c)
  {
    Tagged(c, s[c][0])
  }

  /** The head of c's stream is not after any other head. */
  ghost predicate IsLeast(s: Streams, c: int) {
    Live(s, c) && forall d :: Live(s, d) ==> NotAfter(Head(s, c), Head(s, d))
  }

  lemma LeastIsUnique(s: Streams, c: int, d: int)
    requires IsLeast(s, c) && IsLeast(s, d)
    ensures c == d
  {
    assert NotAfter(Head(s, c), Head(s, d)) && NotAfter(Head(s, d), Head(s, c));
  }

  lemma {:induction false} LeastExists(s: Streams, cs: set<int>) returns (c: int)
    requires cs != {} && forall d :: d in cs ==> Live(s, d)
    ensures c in cs && forall d :: d in cs ==> NotAfter(Head(s, c), Head(s, d))
    decreases |cs|
  {
    c := SomeMember(cs);
    if cs - {c} != {} {
      var e := LeastExists(s, cs - {c});
      if NotAfter(Head(s, e), Head(s, c)) { c := e; }
    } else {
      forall d | d in cs ensures d == c { assert d !in cs - {c}; }
    }
  }

  function LiveOnes(s: Streams): set<int> {
    set c | c in s && s[c] != []
  }

  lemma HasID(s: set<int>)
    requires s != {}
    ensures exists c :: c in s
  {
    var c := SomeMember(s);
  }

  /** The number of records in all streams. */
  ghost function Size(s: Streams): nat
    decreases |s|
  {
    if s == map[] then 0
    else
      HasID(s.Keys);
      var c :| c in s.Keys;
      |s[c]| + Size(s - {c})
  }

  lemma {:induction false} SizeOfAny(s: Streams, c: int)
    requires c in s
    ensures Size(s) == |s[c]| + Size(s - {c})
    decreases |s|
  {
    var d :| d in s.Keys && Size(s) == |s[d]| + Size(s - {d});
    if d != c {
      SizeOfAny(s - {d}, c);
      SizeOfAny(s - {c}, d);
      assert s - {c} - {d} == s - {d} - {c};
    }
  }

  /** The streams after c's first record was taken. */
  function Advance(s: Streams, c: int): Streams
    requires Live(s, c)
  {
    s[c := s[c][1..]]
  }

  lemma AdvanceShrinks(s: Streams, c: int)
    requires Live(s, c)
    ensures Size(Advance(s, c)) == Size(s) - 1
  {
    SizeOfAny(s, c);
    SizeOfAny(Advance(s, c), c);
    assert Advance(s, c) - {c} == s - {c};
  }

  lemma SomeLeast(s: Streams)
    requires LiveOnes(s) != {}
    ensures exists c :: IsLeast(s, c)
  {
    var c := LeastExists(s, LiveOnes(s));
    assert IsLeast(s, c);
  }

  ghost function Least(s: Streams): (c: int)
    requires LiveOnes(s) != {}
    ensures IsLeast(s, c)
  {
    SomeLeast(s);
    var c :| IsLeast(s, c);
    c
  }

  /** Always the least head first. */
  ghost function Merged(s: Streams): seq<Tagged>
    decreases Size(s)
  {
    if LiveOnes(s) == {} then []
    else
      var c := Least(s);
      AdvanceShrinks(s, c);
      [Head(s, c)] + Merged(Advance(s, c))
  }

  /** Taking the least head is one step of the merge. */
  lemma MergeStep(s: Streams, c: int)
    requires IsLeast(s, c)
    ensures Merged(s) == [Head(s, c)] + Merged(Advance(s, c)) && Size(Advance(s, c)) < Size(s)
  {
    assert c in LiveOnes(s);
    LeastIsUnique(s, c, Least(s));
    AdvanceShrinks(s, c);
  }

  // ---------- what the merge is ----------

  /** The records of c's stream among those emitted, in order. */
  function Of(out: seq<Tagged>, c: int): seq<Record> {
    if out == [] then []
    else (if out[0].clusterID == c then [out[0].rec] else []) + Of(out[1..], c)
  }

  lemma OfCons(t: Tagged, out: seq<Tagged>, c: int)
    ensures Of([t] + out, c) == (if t.clusterID == c then [t.rec] else []) + Of(out, c)
  {
    assert ([t] + out)[1..] == out;
  }

  /** Every record is emitted exactly once, and each stream in its own order. */
  lemma {:induction false} StreamsAreKept(s: Streams, c: int)
    ensures Of(Merged(s), c) == if c in s then s[c] else []
    decreases Size(s)
  {
    if LiveOnes(s) == {} {
      assert c in s ==> s[c] == [] || c in LiveOnes(s);
    } else {
      var l := Least(s);
      MergeStep(s, l);
      StreamsAreKept(Advance(s, l), c);
      OfCons(Head(s, l), Merged(Advance(s, l)), c);
      if c == l { assert s[c] == [s[c][0]] + s[c][1..]; }
    }
  }

  /** After done was emitted, the next record t is not after the next record of any stream. */
  ghost predicate LeastNext(s: Streams, done: seq<Tagged>, t: Tagged) {
    forall d :: d in s && |Of(done, d)| < |s[d]| ==> NotAfter(t, Tagged(d, s[d][|Of(done, d)|]))
  }

  /** At every point the least head is emitted. */
  lemma {:induction false} LeastHeadIsEmitted(s: Streams, i: nat)
    requires i < |Merged(s)|
    ensures LeastNext(s, Merged(s)[..i], Merged(s)[i])
    decreases Size(s)
  {
    var l := Least(s);
    var rest, tail := Advance(s, l), Merged(Advance(s, l));
    MergeStep(s, l);
    if i > 0 {
      LeastHeadIsEmitted(rest, i - 1);
      assert Merged(s)[..i] == [Head(s, l)] + tail[..i - 1];
      forall d | d in s && |Of(Merged(s)[..i], d)| < |s[d]|
        ensures NotAfter(Merged(s)[i], Tagged(d, s[d][|Of(Merged(s)[..i], d)|]))
      {
        OfCons(Head(s, l), tail[..i - 1], d);
        assert d == l ==> rest[d][|Of(tail[..i - 1], d)|] == s[d][|Of(tail[..i - 1], d)| + 1];
      }
    } else {
      forall d | d in s && |Of(Merged(s)[..i], d)| < |s[d]|
        ensures NotAfter(Merged(s)[i], Tagged(d, s[d][|Of(Merged(s)[..i], d)|]))
      {
        assert Live(s, d);
      }
    }
  }

  /** A merge of the streams: each kept whole and in order, nothing else, and always the least head next. */
  ghost predicate IsMerge(s: Streams, out: seq<Tagged>) {
    (forall c :: c in s ==> Of(out, c) == s[c]) && (forall i :: 0 <= i < |out| ==> out[i].clusterID in s) &&
    (forall i :: 0 <= i < |out| ==> LeastNext(s, out[..i], out[i]))
  }

  /** There is only one merge. */
  lemma {:induction false} MergeIsUnique(s: Streams, out: seq<Tagged>)
    requires IsMerge(s, out)
    ensures out == Merged(s)
    decreases |out|
  {
    if out == [] {
      forall c ensures c !in LiveOnes(s) { assert c in s ==> Of(out, c) == s[c]; }
      NoMember(LiveOnes(s));
    } else {
      var t, tail := out[0], out[1..];
      var c := t.clusterID;
      OfCons(t, tail, c);
      assert out == [t] + tail && s[c] == [t.rec] + Of(tail, c);
      FirstIsLeast(s, out);
      MergeStep(s, c);
      TailIsMerge(s, out);
      MergeIsUnique(Advance(s, c), tail);
    }
  }

  lemma FirstIsLeast(s: Streams, out: seq<Tagged>)
    requires IsMerge(s, out) && out != [] && Live(s, out[0].clusterID) && s[out[0].clusterID][0] == out[0].rec
    ensures IsLeast(s, out[0].clusterID)
  {
    assert out[..0] == [] && LeastNext(s, out[..0], out[0]);
    forall d | Live(s, d) ensures NotAfter(Head(s, out[0].clusterID), Head(s, d)) {
      assert |Of(out[..0], d)| == 0;
    }
  }

  lemma LeastNextOfTail(s: Streams, t: Tagged, tail: seq<Tagged>, next: Tagged)
    requires Live(s, t.clusterID) && LeastNext(s, [t] + tail, next)
    ensures LeastNext(Advance(s, t.clusterID), tail, next)
  {
    var rest := Advance(s, t.clusterID);
    forall d | d in rest && |Of(tail, d)| < |rest[d]| ensures NotAfter(next, Tagged(d, rest[d][|Of(tail, d)|])) {
      OfCons(t, tail, d);
      assert |Of([t] + tail, d)| < |s[d]|;
      assert s[d][|Of([t] + tail, d)|] == rest[d][|Of(tail, d)|];
    }
  }

  lemma TailIsMerge(s: Streams, out: seq<Tagged>)
    requires IsMerge(s, out) && out != [] && Live(s, out[0].clusterID)
    ensures IsMerge(Advance(s, out[0].clusterID), out[1..])
  {
    var t, tail, rest := out[0], out[1..], Advance(s, out[0].clusterID);
    assert out == [t] + tail;
    forall c | c in rest ensures Of(tail, c) == rest[c] {
      OfCons(t, tail, c);
      assert Of(out, c) == s[c];
    }
    forall i | 0 <= i < |tail| ensures tail[i].clusterID in rest && LeastNext(rest, tail[..i], tail[i]) {
      assert tail[i] == out[i + 1] && LeastNext(s, out[..i + 1], out[i + 1]);
      assert out[..i + 1] == [t] + tail[..i];
      LeastNextOfTail(s, t, tail[..i], tail[i]);
    }
  }

  /** The merge is one. */
  lemma MergedIsMerge(s: Streams)
    ensures IsMerge(s, Merged(s))
  {
    forall c | c in s ensures Of(Merged(s), c) == s[c] { StreamsAreKept(s, c); }
    forall i | 0 <= i < |Merged(s)| ensures LeastNext(s, Merged(s)[..i], Merged(s)[i]) { LeastHeadIsEmitted(s, i); }
    forall i | 0 <= i < |Merged(s)| ensures Merged(s)[i].clusterID in s { ComesFromStream(s, i); }
  }

  lemma {:induction false} ComesFromStream(s: Streams, i: nat)
    requires i < |Merged(s)|
    ensures var t := Merged(s)[i]; t.clusterID in s && t.rec in s[t.clusterID]
    decreases Size(s)
  {
    var l := Least(s);
    MergeStep(s, l);
    if i > 0 {
      ComesFromStream(Advance(s, l), i - 1);
      assert Merged(s)[i] == Merged(Advance(s, l))[i - 1];
    }
  }

  // ---------- sorted streams ----------

  predicate SortedByTime(records: seq<Record>) {
    forall i, j :: 0 <= i < j < |records| ==> records[i].timestamp <= records[j].timestamp
  }

  ghost predicate AllSorted(s: Streams) {
    forall c :: c in s ==> SortedByTime(s[c])
  }

  /** Streams sorted by timestamp are merged into one sorted by timestamp and cluster ID. */
  lemma {:induction false} MergedIsSorted(s: Streams, i: nat, j: nat)
    requires AllSorted(s) && i < j < |Merged(s)|
    ensures NotAfter(Merged(s)[i], Merged(s)[j])
    decreases Size(s)
  {
    var l := Least(s);
    var rest := Advance(s, l);
    MergeStep(s, l);
    assert Merged(s)[j] == Merged(rest)[j - 1];
    assert AllSorted(rest);
    if i > 0 {
      MergedIsSorted(rest, i - 1, j - 1);
    } else {
      ComesFromStream(rest, j - 1);
      var t := Merged(rest)[j - 1];
      assert t.rec in s[t.clusterID] && Live(s, t.clusterID);
      assert NotAfter(Head(s, l), Head(s, t.clusterID)) && NotAfter(Head(s, t.clusterID), t);
    }
  }

  /** The records, without the tags. */
  function Records(out: seq<Tagged>): seq<Record> {
    seq(|out|, i requires 0 <= i < |out| => out[i].rec)
  }

  /** One stream is its own merge. */
  lemma {:induction false} MergedOfOne(c: int, stream: seq<Record>)
    ensures Records(Merged(map[c := stream])) == stream
    decreases |stream|
  {
    var s: Streams := map[c := stream];
    if stream == [] {
      assert LiveOnes(s) == {};
    } else {
      assert IsLeast(s, c);
      MergeStep(s, c);
      assert Advance(s, c) == map[c := stream[1..]];
      MergedOfOne(c, stream[1..]);
    }
  }
}
