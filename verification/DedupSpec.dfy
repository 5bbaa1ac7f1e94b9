/** What it means for a block to be a duplicate: the successor order on blocks, its direct
    successors, the verdicts the filter can reach, and why removing duplicates loses nothing. */
module DedupSpec {
  import opened Util
  import opened Sharding
  import opened Block
  import opened Sequences
  import opened Arithmetic

  /** The insertion order: fewer sources first, then ULID. */
  predicate Before(a: Meta, b: Meta) {
    |a.sources| < |b.sources| || (|a.sources| == |b.sources| && a.ulid < b.ulid)
  }

  /** The plain inclusion test: compatible shard, and every source contained. */
  predicate Included(a: Meta, b: Meta) {
    (ShardID(a) == "" || ShardID(a) == ShardID(b)) && SourceSet(a) <= SourceSet(b)
  }

  lemma IncludedIsTransitive(a: Meta, b: Meta, c: Meta)
    requires Included(a, b) && Included(b, c)
    ensures Included(a, c)
  {
  }

  lemma SourceKept(a: Meta, c: Meta, src: ULID)
    requires Included(a, c) && src in a.sources
    ensures src in c.sources
  {
    assert src in SourceSet(a);
  }

  /** c comes later than a and includes it. */
  predicate Successor(blocks: set<Meta>, a: Meta, c: Meta) {
    c in blocks && Before(a, c) && Included(a, c)
  }

  /** c is a successor of a with no other block in between: an edge of the transitive reduction. */
  predicate Direct(blocks: set<Meta>, a: Meta, c: Meta) {
    Successor(blocks, a, c) && forall d :: d in blocks ==> !(Successor(blocks, a, d) && Successor(blocks, d, c))
  }

  function DirectSuccessors(blocks: set<Meta>, a: Meta): set<Meta> {
    set c | c in blocks && Direct(blocks, a, c)
  }

  /** The shard IDs of the direct successors: all the verdict depends on. */
  function AboveIDs(blocks: set<Meta>, a: Meta): set<string> {
    ShardIDs(DirectSuccessors(blocks, a))
  }

  function ShardIDs(blocks: set<Meta>): set<string> {
    set c | c in blocks :: ShardID(c)
  }

  // ---------- the verdict, from the shard IDs of the direct successors ----------

  function Indices(ids: set<string>): set<nat> {
    set s | s in ids && ParseShardID(s).Some? :: ParseShardID(s).value.index
  }

  predicate AllParse(ids: set<string>) {
    forall s :: s in ids && s != "" ==> ParseShardID(s).Some?
  }

  /** The number of indices found is the shard count of s. */
  predicate Complete(ids: set<string>, s: string) {
    s in ids && ParseShardID(s).Some? && |Indices(ids)| == ParseShardID(s).value.count
  }

  /** What some order of the direct successors makes the filter say: see Verdicts. */
  ghost predicate MayBeDuplicate(shardID: string, ids: set<string>) {
    ids != {} && (shardID != "" || "" in ids || (AllParse(ids) && exists s :: Complete(ids, s)))
  }

  /** What every order makes the filter say. */
  ghost predicate MustBeDuplicate(shardID: string, ids: set<string>) {
    ids != {} && (shardID != "" || (AllParse(ids) && ("" in ids || forall s :: s in ids ==> Complete(ids, s))))
  }

  /** The verdict cannot depend on the iteration order: no label is unreadable beside an unsharded
      block, and the number of indices matches the shard count of every label or of none. */
  predicate OrderIndependent(shardID: string, ids: set<string>) {
    shardID != "" ||
    if "" in ids then AllParse(ids)
    else AllParse(ids) ==> forall s, t :: s in ids && t in ids && Complete(ids, s) ==> Complete(ids, t)
  }

  lemma BoundsMeet(shardID: string, ids: set<string>)
    ensures MustBeDuplicate(shardID, ids) ==> MayBeDuplicate(shardID, ids)
    ensures OrderIndependent(shardID, ids) <==> (MayBeDuplicate(shardID, ids) ==> MustBeDuplicate(shardID, ids))
  {
    if ids != {} {
      var s :| s in ids;
      assert MustBeDuplicate(shardID, ids) && shardID == "" && "" !in ids ==> Complete(ids, s);
    }
  }

  // ---------- one shard count ----------

  predicate SameCount(s: string, t: string) {
    ParseShardID(s).Some? && ParseShardID(t).Some? ==> ParseShardID(s).value.count == ParseShardID(t).value.count
  }

  predicate ShareSource(a: Meta, b: Meta) {
    exists src :: src in a.sources && src in b.sources
  }

  /** Sharded blocks that share a source use one shard count. */
  ghost predicate UniformCounts(blocks: set<Meta>) {
    forall a, b :: a in blocks && b in blocks && ShareSource(a, b) ==> SameCount(ShardID(a), ShardID(b))
  }

  lemma OneCountAmongSuccessors(blocks: set<Meta>, a: Meta, src: ULID, c: Meta, d: Meta)
    requires UniformCounts(blocks) && src in a.sources
    requires Successor(blocks, a, c) && Successor(blocks, a, d)
    ensures SameCount(ShardID(c), ShardID(d))
  {
    SourceKept(a, c, src);
    SourceKept(a, d, src);
    assert ShareSource(c, d);
  }

  // ---------- the order ----------

  function LaterThan(blocks: set<Meta>, a: Meta): set<Meta> {
    set d | d in blocks && Before(a, d)
  }

  function EarlierThan(blocks: set<Meta>, c: Meta): set<Meta> {
    set d | d in blocks && Before(d, c)
  }

  /** Every successor is reached through a direct one. */
  lemma {:induction false} DirectExists(blocks: set<Meta>, a: Meta, c: Meta) returns (s: Meta)
    requires Successor(blocks, a, c)
    ensures Direct(blocks, a, s) && (s == c || Successor(blocks, s, c))
    decreases |EarlierThan(blocks, c)|
  {
    if d :| d in blocks && Successor(blocks, a, d) && Successor(blocks, d, c) {
      ProperSubsetIsSmaller(EarlierThan(blocks, d), EarlierThan(blocks, c), d);
      s := DirectExists(blocks, a, d);
      if s != d { IncludedIsTransitive(s, d, c); }
    } else {
      s := c;
    }
  }

  // ---------- the pigeonhole on shard indices ----------

  function Below(n: nat): (s: set<nat>)
    ensures |s| == n && forall i: nat :: i in s <==> i < n
  {
    if n == 0 then {} else Below(n - 1) + {n - 1}
  }

  lemma FullIndexSet(indices: set<nat>, n: nat)
    requires |indices| == n && forall i :: i in indices ==> i < n
    ensures forall i :: 0 <= i < n ==> i in indices
  {
    forall i | 0 <= i < n ensures i in indices {
      if i !in indices {
        ProperSubsetIsSmaller(indices, Below(n), i);
      }
    }
  }

  lemma CountMatchesAllIndices(indices: set<nat>, n: nat)
    requires forall i: nat :: i in indices <==> i < n
    ensures |indices| == n
  {
    assert Below(n) == indices;
  }

  // ---------- covering all series ----------

  predicate InShard(s: string, hash: nat) {
    ParseShardID(s).Some? && hash % ParseShardID(s).value.count == ParseShardID(s).value.index
  }

  predicate InSomeShard(ids: set<string>, hash: nat) {
    exists s :: s in ids && InShard(s, hash)
  }

  /** Every series hash falls in one of the shards. */
  ghost predicate CoversAllSeries(ids: set<string>) {
    forall hash :: InSomeShard(ids, hash)
  }

  /** Every series hash below m falls in one of the shards. */
  predicate CoversBelow(ids: set<string>, m: nat) {
    forall hash: nat :: hash < m ==> InSomeShard(ids, hash)
  }

  predicate IsCommonMultiple(ids: set<string>, m: nat) {
    m > 0 && forall s :: s in ids && ParseShardID(s).Some? ==> m % ParseShardID(s).value.count == 0
  }

  /** A common multiple of the shard counts: their product. */
  ghost function CommonMultiple(ids: set<string>): (m: nat)
    ensures IsCommonMultiple(ids, m)
    decreases |ids|
  {
    if ids == {} then 1
    else
      var s :| s in ids;
      var m := CommonMultiple(ids - {s});
      var n := if ParseShardID(s).Some? then ParseShardID(s).value.count else 1;
      ProductIsMultiple(ids, s, m, n);
      m * n
  }

  lemma ProductIsMultiple(ids: set<string>, s: string, m: nat, n: nat)
    requires s in ids && n > 0 && IsCommonMultiple(ids - {s}, m) &&
        (ParseShardID(s).Some? ==> n == ParseShardID(s).value.count)
    ensures IsCommonMultiple(ids, m * n)
  {
    assert m * n > 0;
    forall t | t in ids && ParseShardID(t).Some? ensures (m * n) % ParseShardID(t).value.count == 0 {
      var k := ParseShardID(t).value.count;
      if t == s { MultipleOf(m, n, n); } else { MultipleOf(n, m, k); }
    }
  }

  /** Looking at the hashes below a common multiple of the counts is enough. */
  lemma FiniteTest(ids: set<string>, m: nat)
    requires IsCommonMultiple(ids, m)
    ensures CoversAllSeries(ids) <==> CoversBelow(ids, m)
  {
    if CoversBelow(ids, m) {
      forall hash ensures InSomeShard(ids, hash) {
        var h := Residue(hash, m);
        assert InSomeShard(ids, h);
        var s :| s in ids && InShard(s, h);
        RestOfRest(hash, m, ParseShardID(s).value.count);
        assert InShard(s, hash);
      }
    }
  }

  /** What can be read off the labels: no order says yes, or what an order may say is right. */
  ghost predicate YesIsRight(ids: set<string>) {
    "" in ids || !AllParse(ids) || (forall s :: s in ids ==> !Complete(ids, s)) || CoversBelow(ids, CommonMultiple(ids))
  }

  /** A yes about any of the blocks is right. */
  ghost predicate VerdictsAreRight(blocks: set<Meta>) {
    forall a :: a in blocks && ShardID(a) == "" && a.sources != [] ==> YesIsRight(AboveIDs(blocks, a))
  }

  // ---------- no data is lost ----------

  /** A block that may be called a duplicate has each of its pieces in some direct successor. */
  lemma DuplicateIsCovered(blocks: set<Meta>, a: Meta, src: ULID, hash: nat, unknown: (string, nat) -> bool)
    returns (c: Meta)
    requires ShardID(a) == "" ==> YesIsRight(AboveIDs(blocks, a))
    requires MayBeDuplicate(ShardID(a), AboveIDs(blocks, a))
    requires Holds(a, src, hash, unknown)
    ensures Direct(blocks, a, c) && Holds(c, src, hash, unknown)
  {
    var ids := AboveIDs(blocks, a);
    var s: string;
    if ShardID(a) != "" {
      s :| s in ids;
    } else if "" in ids {
      s := "";
    } else {
      FiniteTest(ids, CommonMultiple(ids));
      assert InSomeShard(ids, hash);
      s :| s in ids && InShard(s, hash);
    }
    c :| c in DirectSuccessors(blocks, a) && ShardID(c) == s;
    SourceKept(a, c, src);
  }

  /** With one shard count among blocks that share a source, every yes is right. */
  lemma UniformCountsAreRight(blocks: set<Meta>)
    requires UniformCounts(blocks)
    ensures VerdictsAreRight(blocks)
  {
    forall a | a in blocks && ShardID(a) == "" && a.sources != [] ensures YesIsRight(AboveIDs(blocks, a)) {
      var ids := AboveIDs(blocks, a);
      if "" !in ids && AllParse(ids) && exists t :: t in ids && Complete(ids, t) {
        var t :| t in ids && Complete(ids, t);
        OneCountAbove(blocks, a, a.sources[0], t);
        forall hash: nat | hash < CommonMultiple(ids) ensures InSomeShard(ids, hash) {
          var s := ShardOfHash(ids, t, hash);
          assert InShard(s, hash);
        }
      }
    }
  }

  /** One shard count is used above a block that has a source. */
  lemma OneCountAbove(blocks: set<Meta>, a: Meta, src: ULID, t: string)
    requires UniformCounts(blocks) && src in a.sources && t in AboveIDs(blocks, a)
    ensures forall s :: s in AboveIDs(blocks, a) ==> SameCount(t, s)
  {
    var d :| d in DirectSuccessors(blocks, a) && ShardID(d) == t;
    forall s | s in AboveIDs(blocks, a) ensures SameCount(t, s) {
      var c :| c in DirectSuccessors(blocks, a) && ShardID(c) == s;
      OneCountAmongSuccessors(blocks, a, src, d, c);
    }
  }

  /** When all indices are present, each series hash falls in one of the shards. */
  lemma ShardOfHash(ids: set<string>, t: string, hash: nat) returns (s: string)
    requires Complete(ids, t) && AllParse(ids) && "" !in ids && forall s :: s in ids ==> SameCount(t, s)
    ensures s in ids && ParseShardID(s).Some? && hash % ParseShardID(s).value.count == ParseShardID(s).value.index
  {
    var i := Residue(hash, ParseShardID(t).value.count);
    AllIndicesPresent(ids, t);
    assert i in Indices(ids);
    s :| s in ids && ParseShardID(s).Some? && ParseShardID(s).value.index == i;
    assert SameCount(t, s);
  }

  lemma AllIndicesPresent(ids: set<string>, t: string)
    requires Complete(ids, t) && AllParse(ids) && "" !in ids && forall s :: s in ids ==> SameCount(t, s)
    ensures forall i :: 0 <= i < ParseShardID(t).value.count ==> i in Indices(ids)
  {
    FullIndexSet(Indices(ids), ParseShardID(t).value.count);
  }

  /** Every piece of every block stays in a block that is kept, whichever duplicates are removed. */
  lemma {:induction false} RemovalLosesNothing(blocks: set<Meta>, removed: set<Meta>, a: Meta, src: ULID, hash: nat,
                                               unknown: (string, nat) -> bool) returns (kept: Meta)
    requires VerdictsAreRight(blocks)
    requires forall d :: d in removed ==> MayBeDuplicate(ShardID(d), AboveIDs(blocks, d))
    requires a in blocks && Holds(a, src, hash, unknown)
    ensures kept in blocks && kept !in removed && Holds(kept, src, hash, unknown)
    decreases |LaterThan(blocks, a)|
  {
    if a in removed {
      var c := DuplicateIsCovered(blocks, a, src, hash, unknown);
      ProperSubsetIsSmaller(LaterThan(blocks, c), LaterThan(blocks, a), c);
      kept := RemovalLosesNothing(blocks, removed, c, src, hash, unknown);
    } else {
      kept := a;
    }
  }

  // ---------- exactly which blocks are duplicates ----------

  ghost predicate ShardFound(blocks: set<Meta>, a: Meta, i: nat, n: nat) {
    exists c :: Successor(blocks, a, c) && ShardOf(c) == Some(ShardRef(i, n))
  }

  /** All n shards of a are found among its successors. */
  ghost predicate ShardsCovered(blocks: set<Meta>, a: Meta, n: nat) {
    0 < n && forall i :: 0 <= i < n ==> ShardFound(blocks, a, i, n)
  }

  /** The successors of a, direct or not, cover its shard: one of the same shard, one unsharded, or
      all n shards. This mentions neither the graph nor any iteration order. */
  ghost predicate CoveredByLater(blocks: set<Meta>, a: Meta) {
    if ShardID(a) != "" then exists c :: Successor(blocks, a, c)
    else (exists c :: Successor(blocks, a, c) && ShardID(c) == "") || exists n: nat :: ShardsCovered(blocks, a, n)
  }

  lemma CoveredIfMayBeDuplicate(blocks: set<Meta>, a: Meta)
    requires UniformCounts(blocks) && a.sources != []
    requires MayBeDuplicate(ShardID(a), AboveIDs(blocks, a))
    ensures CoveredByLater(blocks, a)
  {
    var ids := AboveIDs(blocks, a);
    if ShardID(a) != "" || "" in ids {
      var c :| c in DirectSuccessors(blocks, a) && (ShardID(a) != "" || ShardID(c) == "");
    } else {
      var t :| Complete(ids, t);
      var n := ParseShardID(t).value.count;
      OneCountAbove(blocks, a, a.sources[0], t);
      AllIndicesPresent(ids, t);
      forall i | 0 <= i < n ensures ShardFound(blocks, a, i, n) {
        assert i in Indices(ids);
        var s :| s in ids && ParseShardID(s).Some? && ParseShardID(s).value.index == i;
        var c :| c in DirectSuccessors(blocks, a) && ShardID(c) == s;
      }
      assert ShardsCovered(blocks, a, n);
    }
  }

  lemma MustBeDuplicateIfCovered(blocks: set<Meta>, a: Meta)
    requires UniformCounts(blocks) && AllParse(ShardIDs(blocks)) && a.sources != []
    requires CoveredByLater(blocks, a)
    ensures MustBeDuplicate(ShardID(a), AboveIDs(blocks, a))
  {
    if ShardID(a) != "" {
      var c :| Successor(blocks, a, c);
      var s := DirectExists(blocks, a, c);
      assert s in DirectSuccessors(blocks, a);
      assert ShardID(s) in AboveIDs(blocks, a);
    } else if c :| Successor(blocks, a, c) && ShardID(c) == "" {
      var s := DirectExists(blocks, a, c);
      assert s in DirectSuccessors(blocks, a) && ShardID(s) == "";
      assert ShardID(s) in AboveIDs(blocks, a) && AboveIDs(blocks, a) <= ShardIDs(blocks);
    } else {
      var n: nat :| ShardsCovered(blocks, a, n);
      AllIndicesAreDirect(blocks, a, n);
    }
  }

  lemma FoundShardIsDirect(blocks: set<Meta>, a: Meta, i: nat, n: nat)
    requires ShardID(a) == "" && ShardFound(blocks, a, i, n)
    requires !exists c :: Successor(blocks, a, c) && ShardID(c) == ""
    ensures i in Indices(AboveIDs(blocks, a))
  {
    var c :| Successor(blocks, a, c) && ShardOf(c) == Some(ShardRef(i, n));
    var s := DirectExists(blocks, a, c);
    assert ShardID(s) == ShardID(c);
    assert s in DirectSuccessors(blocks, a);
  }

  lemma CountIsIndices(ids: set<string>, n: nat)
    requires forall s :: s in ids ==> ParseShardID(s).Some? && ParseShardID(s).value.count == n
    requires forall i :: 0 <= i < n ==> i in Indices(ids)
    ensures |Indices(ids)| == n
  {
    CountMatchesAllIndices(Indices(ids), n);
  }

  lemma AboveShareTheCount(blocks: set<Meta>, a: Meta, n: nat, s: string)
    requires UniformCounts(blocks) && AllParse(ShardIDs(blocks)) && a.sources != []
    requires ShardFound(blocks, a, 0, n) && s in AboveIDs(blocks, a)
    requires !exists c :: Successor(blocks, a, c) && ShardID(c) == ""
    ensures ParseShardID(s).Some? && ParseShardID(s).value.count == n
  {
    var z :| Successor(blocks, a, z) && ShardOf(z) == Some(ShardRef(0, n));
    var c :| c in DirectSuccessors(blocks, a) && ShardID(c) == s;
    assert Successor(blocks, a, c) && s in ShardIDs(blocks);
    OneCountAmongSuccessors(blocks, a, a.sources[0], z, c);
  }

  lemma AllIndicesAreDirect(blocks: set<Meta>, a: Meta, n: nat)
    requires UniformCounts(blocks) && AllParse(ShardIDs(blocks)) && a.sources != []
    requires ShardID(a) == "" && ShardsCovered(blocks, a, n)
    requires !exists c :: Successor(blocks, a, c) && ShardID(c) == ""
    ensures MustBeDuplicate("", AboveIDs(blocks, a))
  {
    var ids := AboveIDs(blocks, a);
    forall i | 0 <= i < n ensures i in Indices(ids) { FoundShardIsDirect(blocks, a, i, n); }
    assert ShardFound(blocks, a, 0, n);
    forall s | s in ids ensures ParseShardID(s).Some? && ParseShardID(s).value.count == n {
      AboveShareTheCount(blocks, a, n, s);
    }
    assert 0 in Indices(ids);
    CountIsIndices(ids, n);
  }

  /** The duplicates are exactly the covered blocks, and no iteration order matters. */
  lemma DuplicatesAreTheCovered(blocks: set<Meta>, a: Meta)
    requires UniformCounts(blocks) && AllParse(ShardIDs(blocks)) && a.sources != []
    ensures MayBeDuplicate(ShardID(a), AboveIDs(blocks, a)) <==> CoveredByLater(blocks, a)
    ensures MustBeDuplicate(ShardID(a), AboveIDs(blocks, a)) <==> CoveredByLater(blocks, a)
  {
    BoundsMeet(ShardID(a), AboveIDs(blocks, a));
    if CoveredByLater(blocks, a) { MustBeDuplicateIfCovered(blocks, a); }
    if MayBeDuplicate(ShardID(a), AboveIDs(blocks, a)) { CoveredIfMayBeDuplicate(blocks, a); }
  }

  /** Covered among fewer blocks is covered among more. */
  lemma CoverIsMonotone(some: set<Meta>, all: set<Meta>, a: Meta)
    requires some <= all && CoveredByLater(some, a)
    ensures CoveredByLater(all, a)
  {
    if ShardID(a) != "" {
      var c :| Successor(some, a, c);
      assert Successor(all, a, c);
    } else if c :| Successor(some, a, c) && ShardID(c) == "" {
      assert Successor(all, a, c);
    } else {
      var n: nat :| ShardsCovered(some, a, n);
      forall i | 0 <= i < n ensures ShardFound(all, a, i, n) {
        assert ShardFound(some, a, i, n);
        var c :| Successor(some, a, c) && ShardOf(c) == Some(ShardRef(i, n));
        assert Successor(all, a, c);
      }
      assert ShardsCovered(all, a, n);
    }
  }

  // ---------- when the verdict is right ----------

  /** With one shard count, counting indices decides exactly whether every series is covered. */
  lemma VerdictIsCoverage(ids: set<string>, t: string)
    requires t in ids && AllParse(ids) && "" !in ids && forall s :: s in ids ==> SameCount(t, s)
    ensures MayBeDuplicate("", ids) <==> CoversAllSeries(ids)
  {
    if MayBeDuplicate("", ids) {
      var u :| Complete(ids, u);
      assert SameCount(t, u);
      forall hash ensures InSomeShard(ids, hash) {
        var s := ShardOfHash(ids, t, hash);
        assert InShard(s, hash);
      }
    }
    if CoversAllSeries(ids) {
      CoverageIsComplete(ids, t);
    }
  }

  lemma CoverageIsComplete(ids: set<string>, t: string)
    requires t in ids && AllParse(ids) && "" !in ids && forall s :: s in ids ==> SameCount(t, s)
    requires CoversAllSeries(ids)
    ensures Complete(ids, t)
  {
    var n := ParseShardID(t).value.count;
    forall i | 0 <= i < n ensures i in Indices(ids) {
      assert InSomeShard(ids, i);
      var s :| s in ids && InShard(s, i);
      assert SameCount(t, s);
      ResidueOfSmall(i, n);
    }
    forall s | s in ids ensures ParseShardID(s).Some? && ParseShardID(s).value.count == n { assert SameCount(t, s); }
    CountIsIndices(ids, n);
  }

  lemma ResidueOfSmall(i: nat, n: nat)
    requires i < n
    ensures i % n == i
  {
  }
}
