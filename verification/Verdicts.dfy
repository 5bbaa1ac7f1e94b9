/** The verdict on an unsharded block, as the loop over its direct successors reaches it in a given order,
    and what all orders together can say. */
module Verdicts {
  import opened Util
  import opened Sharding
  import opened Block
  import opened Sorting
  import opened Sequences
  import opened DedupSpec

  /** The loop of isFullyIncludedInSuccessors over the shard IDs that are left, with what it has counted. */
  predicate VerdictIn(order: seq<string>, shardCount: nat, shards: set<nat>) {
    if order == [] then |shards| == shardCount
    else if order[0] == "" then true
    else
      match ParseShardID(order[0])
      case None => false
      case Some(ref) =>
        VerdictIn(order[1..], if shardCount == 0 then ref.count else shardCount, shards + {ref.index})
  }

  /** isFullyIncludedInSuccessors for a block of this shard, its successors' shard IDs coming in this order. */
  predicate Verdict(shardID: string, order: seq<string>) {
    order != [] && (shardID != "" || VerdictIn(order, 0, {}))
  }

  function Names(order: seq<Meta>): seq<string> {
    seq(|order|, i requires 0 <= i < |order| => ShardID(order[i]))
  }

  /** The blocks, each once, in some order. */
  ghost predicate IsOrderOf(order: seq<Meta>, blocks: set<Meta>) {
    NoRepeats(order) && Elements(order) == blocks
  }

  ghost predicate SomeOrderSays(shardID: string, blocks: set<Meta>) {
    exists order :: IsOrderOf(order, blocks) && Verdict(shardID, Names(order))
  }

  ghost predicate EveryOrderSays(shardID: string, blocks: set<Meta>) {
    forall order :: IsOrderOf(order, blocks) ==> Verdict(shardID, Names(order))
  }

  // ---------- what one order says ----------

  lemma FirstAndRest(order: seq<string>)
    requires order != []
    ensures Elements(order) == {order[0]} + Elements(order[1..])
  {
    assert order == [order[0]] + order[1..];
  }

  lemma IndicesWith(ids: set<string>, s: string)
    requires ParseShardID(s).Some?
    ensures Indices({s} + ids) == {ParseShardID(s).value.index} + Indices(ids)
  {
  }

  /** With readable labels the loop ends with all indices, and the count of the first label. */
  lemma {:induction false} ReadableVerdict(order: seq<string>, shardCount: nat, shards: set<nat>)
    requires forall s :: s in order ==> s != "" && ParseShardID(s).Some?
    ensures VerdictIn(order, shardCount, shards) <==>
            |shards + Indices(Elements(order))| ==
            if shardCount != 0 || order == [] then shardCount else ParseShardID(order[0]).value.count
  {
    if order == [] {
      assert Indices(Elements(order)) == {} && shards + {} == shards;
    } else {
      var ref, rest := ParseShardID(order[0]).value, order[1..];
      forall s | s in rest ensures s in order { }
      ReadableVerdict(rest, if shardCount == 0 then ref.count else shardCount, shards + {ref.index});
      FirstAndRest(order);
      IndicesWith(Elements(rest), order[0]);
      assert shards + {ref.index} + Indices(Elements(rest)) == shards + Indices(Elements(order));
    }
  }

  /** So an order of readable labels says whether the number of indices is the count of its first label. */
  lemma FirstLabelDecides(order: seq<string>)
    requires order != [] && "" !in order && AllParse(Elements(order))
    ensures VerdictIn(order, 0, {}) <==> Complete(Elements(order), order[0])
  {
    var ids := Elements(order);
    forall s | s in order ensures s != "" && ParseShardID(s).Some? { assert s in ids; }
    ReadableVerdict(order, 0, {});
    assert {} + Indices(ids) == Indices(ids);
  }

  /** An unsharded successor decides, unless an unreadable label comes before it. */
  lemma {:induction false} UnshardedDecides(order: seq<string>, shardCount: nat, shards: set<nat>)
    requires AllParse(Elements(order)) && "" in order
    ensures VerdictIn(order, shardCount, shards)
  {
    if order[0] != "" {
      assert order[0] in Elements(order) && order == [order[0]] + order[1..];
      var ref := ParseShardID(order[0]).value;
      UnshardedDecides(order[1..], if shardCount == 0 then ref.count else shardCount, shards + {ref.index});
    }
  }

  /** An unreadable label decides, unless an unsharded successor comes before it. */
  lemma {:induction false} UnreadableDecides(order: seq<string>, shardCount: nat, shards: set<nat>)
    requires !AllParse(Elements(order)) && "" !in order
    ensures !VerdictIn(order, shardCount, shards)
  {
    var s :| s in Elements(order) && s != "" && ParseShardID(s).None?;
    if ParseShardID(order[0]).Some? {
      assert order == [order[0]] + order[1..] && s in Elements(order[1..]);
      var ref := ParseShardID(order[0]).value;
      UnreadableDecides(order[1..], if shardCount == 0 then ref.count else shardCount, shards + {ref.index});
    }
  }

  /** Every order's verdict lies between the two bounds. */
  lemma VerdictIsBounded(shardID: string, order: seq<string>)
    ensures Verdict(shardID, order) ==> MayBeDuplicate(shardID, Elements(order))
    ensures MustBeDuplicate(shardID, Elements(order)) ==> Verdict(shardID, order)
  {
    var ids := Elements(order);
    assert order != [] ==> order[0] in ids;
    if order != [] && shardID == "" {
      if !AllParse(ids) {
        if "" !in order { UnreadableDecides(order, 0, {}); }
      } else if "" in order {
        UnshardedDecides(order, 0, {});
      } else {
        FirstLabelDecides(order);
      }
    } else if order == [] {
      assert ids == {};
    }
  }

  // ---------- what all orders say ----------

  lemma {:induction false} SomeOrder(blocks: set<Meta>) returns (order: seq<Meta>)
    ensures IsOrderOf(order, blocks)
    decreases |blocks|
  {
    if blocks == {} {
      order := [];
    } else {
      var b :| b in blocks;
      order := OrderFrom(blocks, b);
    }
  }

  /** An order with b first. */
  lemma {:induction false} OrderFrom(blocks: set<Meta>, b: Meta) returns (order: seq<Meta>)
    requires b in blocks
    ensures IsOrderOf(order, blocks) && order != [] && order[0] == b
    decreases |blocks|, 0
  {
    var rest := SomeOrder(blocks - {b});
    order := [b] + rest;
    assert Elements(order) == {b} + Elements(rest);
  }

  lemma NamesOfOrder(order: seq<Meta>, blocks: set<Meta>)
    requires IsOrderOf(order, blocks)
    ensures Elements(Names(order)) == ShardIDs(blocks)
  {
    forall s | s in ShardIDs(blocks) ensures s in Names(order) {
      var b :| b in blocks && ShardID(b) == s;
      var i :| 0 <= i < |order| && order[i] == b;
      assert Names(order)[i] == s;
    }
  }

  /** The verdict of an order is decided by the block in front, when that settles it. */
  lemma FrontDecides(blocks: set<Meta>, b: Meta) returns (order: seq<Meta>)
    requires b in blocks
    ensures IsOrderOf(order, blocks)
    ensures ShardID(b) == "" ==> Verdict("", Names(order))
    ensures ShardID(b) != "" && ShardOf(b).None? ==> !Verdict("", Names(order))
    ensures "" !in ShardIDs(blocks) && AllParse(ShardIDs(blocks)) ==>
              (Verdict("", Names(order)) <==> Complete(ShardIDs(blocks), ShardID(b)))
  {
    order := OrderFrom(blocks, b);
    var names := Names(order);
    NamesOfOrder(order, blocks);
    assert names[0] == ShardID(b);
    if "" !in ShardIDs(blocks) && AllParse(ShardIDs(blocks)) {
      assert "" !in names by { assert "" !in Elements(names); }
      FirstLabelDecides(names);
    }
  }

  /** The upper bound is what some order says, and the lower bound what every order says. */
  lemma BoundsAreReached(shardID: string, blocks: set<Meta>)
    ensures MayBeDuplicate(shardID, ShardIDs(blocks)) <==> SomeOrderSays(shardID, blocks)
    ensures MustBeDuplicate(shardID, ShardIDs(blocks)) <==> EveryOrderSays(shardID, blocks)
  {
    var ids := ShardIDs(blocks);
    forall order | IsOrderOf(order, blocks)
      ensures Verdict(shardID, Names(order)) ==> MayBeDuplicate(shardID, ids)
      ensures MustBeDuplicate(shardID, ids) ==> Verdict(shardID, Names(order))
    {
      NamesOfOrder(order, blocks);
      VerdictIsBounded(shardID, Names(order));
    }
    if MayBeDuplicate(shardID, ids) { SomeSaysYes(shardID, blocks); }
    if !MustBeDuplicate(shardID, ids) { SomeSaysNo(shardID, blocks); }
  }

  lemma SomeSaysYes(shardID: string, blocks: set<Meta>)
    requires MayBeDuplicate(shardID, ShardIDs(blocks))
    ensures SomeOrderSays(shardID, blocks)
  {
    var ids := ShardIDs(blocks);
    var s: string;
    if shardID != "" {
      s :| s in ids;
    } else if "" in ids {
      s := "";
    } else {
      s :| Complete(ids, s);
    }
    var b :| b in blocks && ShardID(b) == s;
    var order := FrontDecides(blocks, b);
    assert Verdict(shardID, Names(order)) by { assert b in Elements(order) && order != []; }
  }

  lemma SomeSaysNo(shardID: string, blocks: set<Meta>)
    requires !MustBeDuplicate(shardID, ShardIDs(blocks))
    ensures !EveryOrderSays(shardID, blocks)
  {
    var ids := ShardIDs(blocks);
    var order: seq<Meta>;
    if blocks == {} {
      order := SomeOrder(blocks);
      SizeOfElements(order);
    } else {
      var any :| any in blocks;
      assert ShardID(any) in ids;
      var s :| s in ids && s != "" && (if AllParse(ids) then !Complete(ids, s) else ParseShardID(s).None?);
      var b :| b in blocks && ShardID(b) == s;
      order := FrontDecides(blocks, b);
    }
    assert IsOrderOf(order, blocks) && !Verdict(shardID, Names(order));
  }

  /** All orders agree exactly when no label is unreadable beside an unsharded block, and the number of indices
      matches the shard count of every label or of none. */
  lemma VerdictOrderIndependence(shardID: string, blocks: set<Meta>)
    ensures OrderIndependent(shardID, ShardIDs(blocks)) <==>
            forall a, b :: IsOrderOf(a, blocks) && IsOrderOf(b, blocks) ==>
              Verdict(shardID, Names(a)) == Verdict(shardID, Names(b))
  {
    BoundsAreReached(shardID, blocks);
    BoundsMeet(shardID, ShardIDs(blocks));
    if OrderIndependent(shardID, ShardIDs(blocks)) {
      forall a, b | IsOrderOf(a, blocks) && IsOrderOf(b, blocks)
        ensures Verdict(shardID, Names(a)) == Verdict(shardID, Names(b)) { }
    } else {
      var a :| IsOrderOf(a, blocks) && Verdict(shardID, Names(a));
      var b :| IsOrderOf(b, blocks) && !Verdict(shardID, Names(b));
    }
  }

  // ---------- when a yes is right ----------

  /** Every series is in a successor: an unsharded one, or one of its shard. */
  ghost predicate Contained(ids: set<string>) {
    "" in ids || CoversAllSeries(ids)
  }

  /** A yes about an unsharded block is right, in whatever order it was found, exactly under that condition. */
  lemma YesIsRightExactly(blocks: set<Meta>)
    ensures (SomeOrderSays("", blocks) ==> Contained(ShardIDs(blocks))) <==> YesIsRight(ShardIDs(blocks))
  {
    BoundsAreReached("", blocks);
    FiniteTest(ShardIDs(blocks), CommonMultiple(ShardIDs(blocks)));
  }

  /** The labels 1 of 2 and 2 of 4: in this order the verdict is yes, in the other it is no, and series 3 is in
      neither. */
  lemma MixedLabelsMislead(s: string, t: string)
    requires ParseShardID(s) == Some(ShardRef(0, 2)) && ParseShardID(t) == Some(ShardRef(1, 4)) && s != "" && t != ""
    ensures Verdict("", [s, t]) && !Verdict("", [t, s]) && !InSomeShard({s, t}, 3)
  {
    TwoIndices(s, t);
    assert Elements([s, t]) == {s, t} && Elements([t, s]) == {s, t};
    FirstLabelDecides([s, t]);
    FirstLabelDecides([t, s]);
  }

  lemma TwoIndices(s: string, t: string)
    requires ParseShardID(s) == Some(ShardRef(0, 2)) && ParseShardID(t) == Some(ShardRef(1, 4))
    ensures |Indices({s, t})| == 2 && Complete({s, t}, s) && !Complete({s, t}, t) && !InShard(s, 3) && !InShard(t, 3)
  {
    IndicesWith({t}, s);
    IndicesWith({}, t);
    assert {s, t} == {s} + {t} && {t} == {t} + {};
    assert Indices({s, t}) == {0, 1};
  }

  /** The same of two blocks with these labels. */
  lemma MixedCountsMislead(b: Meta, c: Meta)
    requires ShardOf(b) == Some(ShardRef(0, 2)) && ShardOf(c) == Some(ShardRef(1, 4)) && ShardID(b) != "" &&
        ShardID(c) != ""
    ensures Verdict("", Names([b, c])) && !Verdict("", Names([c, b])) && !InShard(ShardID(b), 3) &&
        !InShard(ShardID(c), 3)
  {
    MixedLabelsMislead(ShardID(b), ShardID(c));
    TwoIndices(ShardID(b), ShardID(c));
    assert Names([b, c]) == [ShardID(b), ShardID(c)] && Names([c, b]) == [ShardID(c), ShardID(b)];
  }
}
