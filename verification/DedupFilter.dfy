/** The shard-aware deduplication filter: finding the duplicates of one resolution, and filtering the
    synced blocks. */
module DedupFilter {
  import opened Util
  import opened Sharding
  import opened Block
  import opened Sorting
  import opened Sequences
  import opened DedupSpec
  import opened Reduction
  import opened Verdicts
  import opened DedupGraph

  ghost predicate UniqueULIDs(metas: seq<Meta>) {
    forall i, j :: 0 <= i < j < |metas| ==> metas[i].ulid != metas[j].ulid
  }

  predicate NotAfter(a: Meta, b: Meta) {
    |a.sources| < |b.sources| || (|a.sources| == |b.sources| && a.ulid <= b.ulid)
  }

  /** The blocks are listed in insertion order. */
  ghost predicate Ordered(metas: seq<Meta>) {
    forall i, j :: 0 <= i < j < |metas| ==> Before(metas[i], metas[j])
  }

  /** ids are duplicates the filter may report: all that every iteration order reports, and none that
      no iteration order does. */
  ghost predicate Reported(blocks: set<Meta>, ids: set<ULID>) {
    (forall id :: id in ids ==>
      exists m :: m in blocks && m.ulid == id && MayBeDuplicate(ShardID(m), AboveIDs(blocks, m))) &&
    (forall m :: m in blocks && MustBeDuplicate(ShardID(m), AboveIDs(blocks, m)) ==> m.ulid in ids)
  }

  // ---------- the insertion order as an order on positions ----------

  predicate IncAt(metas: seq<Meta>, p: nat, q: nat) {
    p < q <= |metas| && (p == 0 || Included(metas[p - 1], metas[q - 1]))
  }

  function OrderOf(metas: seq<Meta>): Order {
    (p: nat, q: nat) => IncAt(metas, p, q)
  }

  lemma OrderIsStrict(metas: seq<Meta>)
    ensures Strict(OrderOf(metas))
  {
    var r := OrderOf(metas);
    forall p, d, q | Between(r, p, d, q) ensures r(p, q) {
      if p > 0 { IncludedIsTransitive(metas[p - 1], metas[d - 1], metas[q - 1]); }
    }
  }

  /** The edges between blocks are the direct successors. */
  lemma EdgeIsDirect(metas: seq<Meta>, p: nat, q: nat)
    requires Ordered(metas) && 0 < p <= |metas| && 0 < q <= |metas|
    ensures Edge(OrderOf(metas), p, q) <==> Direct(Elements(metas), metas[p - 1], metas[q - 1])
  {
    var r, blocks, a, c := OrderOf(metas), Elements(metas), metas[p - 1], metas[q - 1];
    SuccessorAt(metas, p, q);
    if Edge(r, p, q) {
      forall d | d in blocks ensures !(Successor(blocks, a, d) && Successor(blocks, d, c)) {
        var i :| 0 <= i < |metas| && metas[i] == d;
        SuccessorAt(metas, p, i + 1);
        SuccessorAt(metas, i + 1, q);
        assert !Between(r, p, i + 1, q);
      }
    }
    if Direct(blocks, a, c) {
      forall d: nat ensures !Between(r, p, d, q) {
        if Between(r, p, d, q) {
          SuccessorAt(metas, p, d);
          SuccessorAt(metas, d, q);
        }
      }
    }
  }

  lemma SuccessorAt(metas: seq<Meta>, p: nat, q: nat)
    requires Ordered(metas) && 0 < p <= |metas| && 0 < q <= |metas|
    ensures OrderOf(metas)(p, q) <==> Successor(Elements(metas), metas[p - 1], metas[q - 1])
  {
    assert Before(metas[p - 1], metas[q - 1]) <==> p < q;
  }

  // ---------- finding duplicates ----------

  lemma SortedIsOrdered(metas: seq<Meta>, input: seq<Meta>)
    requires UniqueULIDs(input) && SortedBy(metas, NotAfter) && multiset(metas) == multiset(input)
    ensures Ordered(metas) && UniqueULIDs(metas) && Elements(metas) == Elements(input)
  {
    PermutationKeepsDistinct(input, metas);
    forall i, j | 0 <= i < j < |metas| ensures metas[i].ulid != metas[j].ulid {
      assert metas[i] in input && metas[j] in input;
      var k :| 0 <= k < |input| && input[k] == metas[i];
      var l :| 0 <= l < |input| && input[l] == metas[j];
    }
  }

  /** The root and the nodes of the first blocks of the list, in a layout over the whole list. */
  ghost predicate Lists(metas: seq<Meta>, g: Layout, hash: ULID -> nat) {
    |g.nodes| == g.last + 1 && g.last <= |metas| && Strict(g.r) && g.nodes[0].meta.None? &&
    (forall n {:trigger g.nodes[n].meta} :: 0 < n <= g.last ==> g.nodes[n].meta == Some(metas[n - 1])) &&
    (forall n {:trigger g.nodes[n].pos} :: 0 <= n <= g.last ==> g.nodes[n].pos == n) &&
    (forall n {:trigger g.nodes[n].Valid()} :: 0 <= n <= g.last ==> g.nodes[n].Valid() && g.nodes[n].hash == hash) &&
    (forall n {:trigger g.id(n)} :: 0 < n <= |metas| ==> g.id(n) == metas[n - 1].ulid && g.index(g.id(n)) == n) &&
    (forall p: nat, q: nat {:trigger IncAt(metas, p, q)} :: g.r(p, q) <==> IncAt(metas, p, q))
  }

  ghost function PositionOf(metas: seq<Meta>, id: ULID): nat {
    if i :| 0 <= i < |metas| && metas[i].ulid == id then i + 1 else 0
  }

  ghost function EmptyLayout(metas: seq<Meta>, root: Node): Layout {
    Layout([root], 0, OrderOf(metas), (n: nat) => if 0 < n <= |metas| then metas[n - 1].ulid else 0,
           (id: ULID) => PositionOf(metas, id))
  }

  lemma EmptyLayoutLists(metas: seq<Meta>, root: Node, hash: ULID -> nat)
    requires UniqueULIDs(metas) && root.meta.None? && root.pos == 0 && root.Valid() && root.hash == hash
    requires root.successors == map[]
    ensures Lists(metas, EmptyLayout(metas, root), hash) && EmptyLayout(metas, root).Full()
  {
    OrderIsStrict(metas);
    var g := EmptyLayout(metas, root);
    assert g.Sound(0) && g.HasEdges(0, 1);
    forall n | 0 < n <= |metas| ensures g.index(g.id(n)) == n { assert metas[n - 1].ulid == g.id(n); }
  }

  lemma ListedIsValid(metas: seq<Meta>, g: Layout, hash: ULID -> nat)
    requires Lists(metas, g, hash)
    ensures g.Valid()
  {
    forall p: nat, q: nat | q <= g.last ensures g.r(p, q) <==> g.Inc(p, q) {
      assert IncAt(metas, p, q) <==> g.Inc(p, q) by {
        if p < q { assert g.nodes[p].meta.None? <==> p == 0; }
      }
    }
    assert g.nodes[0].Valid();
  }

  /** One turn of the insertion loop. */
  method InsertNext(hash: ULID -> nat, root: Node, meta: Meta, ghost metas: seq<Meta>, ghost g: Layout)
    returns (ghost g': Layout)
    requires Lists(metas, g, hash) && g.Full() && root == g.nodes[0] && g.last < |metas| && meta == metas[g.last]
    modifies g.nodes
    ensures Lists(metas, g', hash) && g'.Full() && g'.last == g.last + 1 && g'.nodes[..g.last + 1] == g.nodes
    ensures fresh(g'.nodes[g'.last]) && g'.r == g.r && g'.id == g.id
  {
    var node := new Node(hash, Some(meta), g.last + 1);
    g' := g.(nodes := g.nodes + [node], last := g.last + 1);
    ListedIsValid(metas, g', hash);
    StillConsistent(g, g');
    var added := root.AddSuccessorIfPossible(node, g');
    assert g'.Inc(0, g'.last);
    NowFull(g');
  }

  lemma StillConsistent(g: Layout, g': Layout)
    requires g.Full() && |g.nodes| == g.last + 1 && |g'.nodes| == |g.nodes| + 1 && g.nodes == g'.nodes[..|g.nodes|]
    requires g' == g.(nodes := g'.nodes, last := g.last + 1)
    ensures g'.Consistent()
  {
    forall n | 0 <= n < g'.last ensures g'.Sound(n) && g'.HasEdges(n, g'.last) {
      assert g.Sound(n) && g.HasEdges(n, g.last + 1);
    }
  }

  lemma NowFull(g: Layout)
    requires g.Valid() && g.Consistent() && g.NewEdges(0) && g.nodes[g.last].successors == map[]
    ensures g.Full()
  {
    forall n | 0 <= n <= g.last ensures g.Sound(n) && g.HasEdges(n, g.last + 1) {
      if n < g.last {
        assert g.Sound(n) && g.HasEdges(n, g.last);
        assert n == 0 || g.Inc(0, n);
        assert n == 0 || g.r(0, n);
        forall q | 0 < q < g.last + 1 && Edge(g.r, n, q) ensures g.id(q) in g.nodes[n].successors {}
      } else {
        forall q: nat | 0 < q < g.last + 1 ensures !Edge(g.r, n, q) { assert !g.Inc(n, q); }
      }
    }
  }

  /** The insertion loop. The context may be cancelled before any insertion. */
  method BuildTree(hash: ULID -> nat, metas: seq<Meta>) returns (ok: bool, root: Node, ghost g: Layout)
    requires UniqueULIDs(metas)
    ensures ok ==> Lists(metas, g, hash) && g.Full() && g.last == |metas| && g.nodes[0] == root
  {
    root := new Node(hash, None, 0);
    g := EmptyLayout(metas, root);
    EmptyLayoutLists(metas, root, hash);
    for k := 0 to |metas|
      invariant Lists(metas, g, hash) && g.Full() && g.last == k && g.nodes[0] == root
      invariant forall n :: 0 <= n < |g.nodes| ==> fresh(g.nodes[n])
    {
      if * {
        return false, root, g; // ctx.Err()
      }
      g := InsertNext(hash, root, metas[k], metas, g);
    }
    ok := true;
  }

  ghost predicate MayAt(metas: seq<Meta>, n: nat) {
    0 < n <= |metas| && MayBeDuplicate(ShardID(metas[n - 1]), AboveIDs(Elements(metas), metas[n - 1]))
  }

  ghost predicate MustAt(metas: seq<Meta>, n: nat) {
    0 < n <= |metas| && MustBeDuplicate(ShardID(metas[n - 1]), AboveIDs(Elements(metas), metas[n - 1]))
  }

  /** In the finished graph the shard IDs above a node are those of its block's direct successors. */
  lemma IDsAboveAreDirect(metas: seq<Meta>, g: Layout, hash: ULID -> nat, n: nat)
    requires Ordered(metas) && Lists(metas, g, hash) && g.last == |metas| && 0 < n <= g.last
    ensures g.IDsAbove(n) == AboveIDs(Elements(metas), metas[n - 1])
  {
    var blocks, a := Elements(metas), metas[n - 1];
    forall q | 0 < q <= g.last ensures Edge(g.r, n, q) <==> Direct(blocks, a, metas[q - 1]) {
      SameEdges(metas, g.r, n, q);
      EdgeIsDirect(metas, n, q);
    }
    forall q | 0 < q <= g.last ensures g.nodes[q].shardID == ShardID(metas[q - 1]) {
      assert g.nodes[q].Valid() && g.nodes[q].meta == Some(metas[q - 1]);
    }
    forall s | s in AboveIDs(blocks, a) ensures s in g.IDsAbove(n) {
      var c :| c in DirectSuccessors(blocks, a) && ShardID(c) == s;
      var i :| 0 <= i < |metas| && metas[i] == c;
      assert Edge(g.r, n, i + 1);
    }
    forall s | s in g.IDsAbove(n) ensures s in AboveIDs(blocks, a) {
      var q: nat :| 0 < q <= g.last && Edge(g.r, n, q) && g.nodes[q].shardID == s;
      assert metas[q - 1] in DirectSuccessors(blocks, a);
    }
  }

  lemma SameEdges(metas: seq<Meta>, r: Order, p: nat, q: nat)
    requires forall p: nat, q: nat {:trigger IncAt(metas, p, q)} :: r(p, q) <==> IncAt(metas, p, q)
    ensures Edge(r, p, q) <==> Edge(OrderOf(metas), p, q)
  {
    var o := OrderOf(metas);
    forall p: nat, q: nat ensures r(p, q) == o(p, q) { assert IncAt(metas, p, q) == o(p, q); }
    forall d ensures Between(r, p, d, q) <==> Between(o, p, d, q) { }
  }

  /** Collects the duplicates of the finished graph. */
  method Collect(root: Node, ghost metas: seq<Meta>, ghost g: Layout, ghost hash: ULID -> nat) returns (ids: set<ULID>)
    requires Ordered(metas) && Lists(metas, g, hash) && g.Full() && g.last == |metas| && g.nodes[0] == root
    ensures Reported(Elements(metas), ids)
  {
    ghost var may, must := (n: nat) => MayAt(metas, n), (n: nat) => MustAt(metas, n);
    ListedIsValid(metas, g, hash);
    VerdictsBounded(metas, g, hash, may, must);
    assert g.nodes[0].pos == 0;
    ids := root.GetDuplicateBlocks({}, g, may, must);
    ReportedPositions(metas, g, hash, may, must, ids);
  }

  lemma VerdictsBounded(metas: seq<Meta>, g: Layout, hash: ULID -> nat, may: nat -> bool, must: nat -> bool)
    requires Ordered(metas) && Lists(metas, g, hash) && g.last == |metas|
    requires forall n :: may(n) == MayAt(metas, n) && must(n) == MustAt(metas, n)
    ensures g.Verdicts(may, must)
  {
    forall n | 0 < n <= g.last
      ensures MayBeDuplicate(g.nodes[n].shardID, g.IDsAbove(n)) == may(n)
      ensures must(n) == MustBeDuplicate(g.nodes[n].shardID, g.IDsAbove(n))
    {
      IDsAboveAreDirect(metas, g, hash, n);
      assert g.nodes[n].Valid() && g.nodes[n].meta == Some(metas[n - 1]);
    }
  }

  lemma ReportedPositions(metas: seq<Meta>, g: Layout, hash: ULID -> nat, may: nat -> bool, must: nat -> bool,
                          ids: set<ULID>)
    requires Lists(metas, g, hash) && g.last == |metas|
    requires forall n :: may(n) == MayAt(metas, n) && must(n) == MustAt(metas, n)
    requires forall id :: id in ids ==> exists n :: 0 < n <= g.last && g.id(n) == id && may(n)
    requires forall n :: 0 < n <= g.last && g.r(0, n) && must(n) ==> g.id(n) in ids
    ensures Reported(Elements(metas), ids)
  {
    var blocks := Elements(metas);
    forall id | id in ids
      ensures exists m :: m in blocks && m.ulid == id && MayBeDuplicate(ShardID(m), AboveIDs(blocks, m))
    {
      var n :| 0 < n <= g.last && g.id(n) == id && may(n);
      assert metas[n - 1] in blocks;
    }
    forall m | m in blocks && MustBeDuplicate(ShardID(m), AboveIDs(blocks, m)) ensures m.ulid in ids {
      var i :| 0 <= i < |metas| && metas[i] == m;
      assert IncAt(metas, 0, i + 1) && must(i + 1);
      assert g.id(i + 1) == m.ulid;
    }
  }

  /** findDuplicates: sort, insert every block below the root, collect. None when cancelled. */
  method FindDuplicates(hash: ULID -> nat, input: seq<Meta>) returns (duplicates: Option<set<ULID>>)
    requires UniqueULIDs(input)
    ensures duplicates.Some? ==> Reported(Elements(input), duplicates.value)
  {
    var metas := SortBy(input, NotAfter);
    SortedIsOrdered(metas, input);
    var ok, root, g := BuildTree(hash, metas);
    if !ok {
      return None;
    }
    var ids := Collect(root, metas, g, hash);
    return Some(ids);
  }

  /** orders gives the order in which the direct successors of each block are visited, and ids are the blocks
      that are duplicates by the verdict in that order. */
  ghost predicate IsOutcome(blocks: set<Meta>, orders: Meta -> seq<Meta>, ids: set<ULID>) {
    (forall m :: m in blocks ==> IsOrderOf(orders(m), DirectSuccessors(blocks, m))) &&
    (forall m :: m in blocks ==> (m.ulid in ids <==> Verdict(ShardID(m), Names(orders(m))))) &&
    (forall id :: id in ids ==> exists m :: m in blocks && m.ulid == id)
  }

  /** An order of the blocks with the verdict said, if there is one. */
  ghost function OrderSaying(shardID: string, blocks: set<Meta>, yes: bool): (order: seq<Meta>)
    requires if yes then SomeOrderSays(shardID, blocks) else !EveryOrderSays(shardID, blocks)
    ensures IsOrderOf(order, blocks) && Verdict(shardID, Names(order)) == yes
  {
    var order :| IsOrderOf(order, blocks) && Verdict(shardID, Names(order)) == yes;
    order
  }

  /** What findDuplicates may report is exactly what some choice of orders makes it report. */
  lemma ReportedIffOutcome(blocks: set<Meta>, ids: set<ULID>)
    requires forall a, b :: a in blocks && b in blocks && a.ulid == b.ulid ==> a == b
    ensures Reported(blocks, ids) <==> exists orders :: IsOutcome(blocks, orders, ids)
  {
    forall m | m in blocks
      ensures MayBeDuplicate(ShardID(m), AboveIDs(blocks, m)) <==>
          SomeOrderSays(ShardID(m), DirectSuccessors(blocks, m))
      ensures MustBeDuplicate(ShardID(m), AboveIDs(blocks, m)) <==>
          EveryOrderSays(ShardID(m), DirectSuccessors(blocks, m))
    {
      BoundsAreReached(ShardID(m), DirectSuccessors(blocks, m));
    }
    if Reported(blocks, ids) {
      var orders := (m: Meta) =>
        if m in blocks && (if m.ulid in ids then SomeOrderSays(ShardID(m), DirectSuccessors(blocks, m))
                           else !EveryOrderSays(ShardID(m), DirectSuccessors(blocks, m)))
        then OrderSaying(ShardID(m), DirectSuccessors(blocks, m), m.ulid in ids) else [];
      assert IsOutcome(blocks, orders, ids);
    }
  }

  /** What the finished graph says: a node has an edge to exactly its direct successors. */
  lemma GraphIsTransitiveReduction(metas: seq<Meta>, g: Layout, hash: ULID -> nat, p: nat, q: nat)
    requires Ordered(metas) && Lists(metas, g, hash) && g.Full() && g.last == |metas| && 0 < p <= g.last &&
        0 < q <= g.last
    ensures metas[q - 1].ulid in g.nodes[p].successors <==> Direct(Elements(metas), metas[p - 1], metas[q - 1])
  {
    assert g.Sound(p) && g.HasEdges(p, g.last + 1) && g.id(q) == metas[q - 1].ulid;
    SameEdges(metas, g.r, p, q);
    EdgeIsDirect(metas, p, q);
  }

  /** The nodes of the path are linked by the successor maps. */
  ghost predicate Walk(g: Layout, path: seq<nat>)
    reads g.nodes
  {
    |path| >= 2 && (forall i :: 0 <= i < |path| ==> 0 < path[i] <= g.last && path[i] < |g.nodes|) &&
    forall i :: 0 < i < |path| ==> g.id(path[i]) in g.nodes[path[i - 1]].successors
  }

  lemma WalkIsPath(metas: seq<Meta>, g: Layout, hash: ULID -> nat, path: seq<nat>)
    requires Ordered(metas) && Lists(metas, g, hash) && g.Full() && g.last == |metas| && |path| >= 2
    requires forall i :: 0 <= i < |path| ==> 0 < path[i] <= g.last
    ensures Walk(g, path) <==> Path(OrderOf(metas), path)
  {
    ListedIsValid(metas, g, hash);
    forall i | 0 < i < |path|
      ensures g.id(path[i]) in g.nodes[path[i - 1]].successors <==> Edge(OrderOf(metas), path[i - 1], path[i])
    {
      assert g.Sound(path[i - 1]) && g.HasEdges(path[i - 1], g.last + 1);
      SameEdges(metas, g.r, path[i - 1], path[i]);
    }
    if Walk(g, path) {
      forall i | 0 <= i < |path| - 1 ensures Edge(OrderOf(metas), path[i], path[i + 1]) {
        assert g.id(path[i + 1]) in g.nodes[path[i + 1 - 1]].successors;
      }
    }
    if Path(OrderOf(metas), path) {
      forall i | 0 < i < |path| ensures g.id(path[i]) in g.nodes[path[i - 1]].successors {
        assert Edge(OrderOf(metas), path[i - 1], path[i - 1 + 1]);
      }
    }
  }

  /** ... and following the successor maps reaches exactly the later blocks that include it. */
  lemma ReachableIffIncluded(metas: seq<Meta>, g: Layout, hash: ULID -> nat, p: nat, q: nat)
    requires Ordered(metas) && Lists(metas, g, hash) && g.Full() && g.last == |metas| && 0 < p <= g.last &&
        0 < q <= g.last
    ensures Successor(Elements(metas), metas[p - 1], metas[q - 1]) <==>
            exists path :: Walk(g, path) && path[0] == p && path[|path| - 1] == q
  {
    var r := OrderOf(metas);
    OrderIsStrict(metas);
    SuccessorAt(metas, p, q);
    if r(p, q) {
      var path := EdgesReach(r, p, q);
      PathStaysBetween(r, path);
      WalkIsPath(metas, g, hash, path);
    }
    forall path | Walk(g, path) && path[0] == p && path[|path| - 1] == q ensures r(p, q) {
      WalkIsPath(metas, g, hash, path);
      PathsStayInOrder(r, path);
    }
  }

  // ---------- the filter ----------

  /** The synced blocks, keyed by their ULID. */
  ghost predicate Keyed(metas: map<ULID, Meta>) {
    forall id :: id in metas ==> metas[id].ulid == id
  }

  function OfResolution(metas: map<ULID, Meta>, res: int): set<Meta> {
    set id | id in metas && metas[id].resolution == res :: metas[id]
  }

  /** The blocks a block is compared with: those of its resolution. */
  function Peers(metas: map<ULID, Meta>, id: ULID): set<Meta>
    requires id in metas
  {
    OfResolution(metas, metas[id].resolution)
  }

  ghost predicate MayGo(metas: map<ULID, Meta>, id: ULID) {
    id in metas && MayBeDuplicate(ShardID(metas[id]), AboveIDs(Peers(metas, id), metas[id]))
  }

  ghost predicate MustGo(metas: map<ULID, Meta>, id: ULID) {
    id in metas && MustBeDuplicate(ShardID(metas[id]), AboveIDs(Peers(metas, id), metas[id]))
  }

  /** Nothing but duplicates was removed. */
  ghost predicate OnlyDuplicatesRemoved(metas: map<ULID, Meta>, kept: map<ULID, Meta>) {
    kept.Keys <= metas.Keys && (forall id :: id in kept ==> kept[id] == metas[id]) &&
    forall id :: id in metas && id !in kept ==> MayGo(metas, id)
  }

  class ShardAwareDeduplicateFilter {
    var duplicateIDs: seq<ULID>

    constructor ()
      ensures duplicateIDs == []
    {
      duplicateIDs := [];
    }

    /** The first loop: the blocks of each resolution, in the order of some iteration over the map. */
    static method GroupByResolution(metas: map<ULID, Meta>) returns (groups: map<int, seq<Meta>>)
      requires Keyed(metas)
      ensures forall res :: res in groups ==>
          UniqueULIDs(groups[res]) && Elements(groups[res]) == OfResolution(metas, res)
      ensures forall id :: id in metas ==> metas[id].resolution in groups
    {
      groups := map[];
      var rest := metas.Keys;
      while rest != {}
        invariant rest <= metas.Keys
        invariant forall id :: id in metas && id !in rest ==> metas[id].resolution in groups
        invariant forall res :: res in groups ==> UniqueULIDs(groups[res])
        invariant forall res, m :: res in groups ==>
                    (m in groups[res] <==>
                      m.ulid in metas && m.ulid !in rest && metas[m.ulid] == m && m.resolution == res)
      {
        var id :| id in rest;
        var m := metas[id];
        var group := if m.resolution in groups then groups[m.resolution] else [];
        groups := groups[m.resolution := group + [m]];
        rest := rest - {id};
      }
      forall res | res in groups ensures Elements(groups[res]) == OfResolution(metas, res) {
        forall m ensures m in Elements(groups[res]) <==> m in OfResolution(metas, res) {
          assert m in OfResolution(metas, res) <==> m.ulid in metas && metas[m.ulid] == m && m.resolution == res;
        }
      }
    }

    method Filter(hash: ULID -> nat, metas: map<ULID, Meta>) returns (kept: map<ULID, Meta>, cancelled: bool)
      requires Keyed(metas)
      modifies this
      ensures OnlyDuplicatesRemoved(metas, kept)
      ensures !cancelled ==> forall id :: MustGo(metas, id) ==> id !in kept
      ensures NoRepeats(duplicateIDs) && forall id :: id in duplicateIDs <==> id in metas && id !in kept
    {
      duplicateIDs := [];
      kept := metas;
      var groups := GroupByResolution(metas);
      var rest: set<int> := groups.Keys;
      while rest != {}
        invariant rest <= groups.Keys
        invariant OnlyDuplicatesRemoved(metas, kept)
        invariant forall id :: id in metas && metas[id].resolution in rest ==> id in kept
        invariant forall id :: MustGo(metas, id) && metas[id].resolution !in rest ==> id !in kept
        invariant NoRepeats(duplicateIDs) && forall id :: id in duplicateIDs <==> id in metas && id !in kept
      {
        ghost var one := SomeMember(rest);
        var res :| res in rest;
        var found := FindDuplicates(hash, groups[res]);
        if found.None? {
          return kept, true;
        }
        DuplicatesArePeers(metas, res, found.value);
        kept := Remove(metas, kept, found.value);
        rest := rest - {res};
      }
      cancelled := false;
    }

    /** The inner loop: the duplicates of one resolution are recorded and deleted. */
    method Remove(ghost metas: map<ULID, Meta>, before: map<ULID, Meta>, ids: set<ULID>) returns (kept: map<ULID, Meta>)
      requires ids <= before.Keys <= metas.Keys
      requires NoRepeats(duplicateIDs) && forall id :: id in duplicateIDs <==> id in metas && id !in before
      modifies this
      ensures kept == before - ids
      ensures NoRepeats(duplicateIDs) && forall id :: id in duplicateIDs <==> id in metas && id !in kept
    {
      kept := before;
      var rest := ids;
      while rest != {}
        invariant rest <= ids && kept == before - (ids - rest)
        invariant NoRepeats(duplicateIDs) && forall id :: id in duplicateIDs <==> id in metas && id !in kept
      {
        var id :| id in rest;
        if id in kept {
          duplicateIDs := duplicateIDs + [id];
        }
        kept := kept - {id};
        rest := rest - {id};
      }
    }
  }

  /** What is reported for one resolution are blocks of it that may go, and all of it that must. */
  lemma DuplicatesArePeers(metas: map<ULID, Meta>, res: int, ids: set<ULID>)
    requires Keyed(metas) && Reported(OfResolution(metas, res), ids)
    ensures forall id :: id in ids ==> MayGo(metas, id) && metas[id].resolution == res
    ensures forall id :: MustGo(metas, id) && metas[id].resolution == res ==> id in ids
  {
    var blocks := OfResolution(metas, res);
    forall id | id in ids ensures MayGo(metas, id) && metas[id].resolution == res {
      var m :| m in blocks && m.ulid == id && MayBeDuplicate(ShardID(m), AboveIDs(blocks, m));
    }
    forall id | MustGo(metas, id) && metas[id].resolution == res ensures id in ids {
      assert metas[id] in blocks;
    }
  }

  // ---------- what the filter guarantees ----------

  /** Filtering loses no data: every piece of every block is still in a kept block of its resolution. */
  lemma FilterLosesNothing(metas: map<ULID, Meta>, kept: map<ULID, Meta>, id: ULID, src: ULID, hash: nat,
                           unknown: (string, nat) -> bool) returns (keeper: ULID)
    requires Keyed(metas) && OnlyDuplicatesRemoved(metas, kept)
    requires id in metas && VerdictsAreRight(Peers(metas, id)) && Holds(metas[id], src, hash, unknown)
    ensures keeper in kept && kept[keeper].resolution == metas[id].resolution && Holds(kept[keeper], src, hash, unknown)
  {
    var blocks := Peers(metas, id);
    var removed := set m | m in blocks && m.ulid !in kept;
    forall d | d in removed ensures MayBeDuplicate(ShardID(d), AboveIDs(blocks, d)) {
      assert MayGo(metas, d.ulid);
    }
    var m := RemovalLosesNothing(blocks, removed, metas[id], src, hash, unknown);
    keeper := m.ulid;
  }

  /** What the exact result needs: readable shard labels, one shard count, and sources. */
  ghost predicate WellLabelled(metas: map<ULID, Meta>) {
    forall id :: id in metas ==>
      metas[id].sources != [] && UniformCounts(Peers(metas, id)) && AllParse(ShardIDs(Peers(metas, id)))
  }

  /** The filter removes exactly the blocks that later blocks cover, in whatever order maps are
      iterated, so it has only one possible result. */
  lemma FilterIsExact(metas: map<ULID, Meta>, kept: map<ULID, Meta>, id: ULID)
    requires Keyed(metas) && WellLabelled(metas) && OnlyDuplicatesRemoved(metas, kept)
    requires forall i :: MustGo(metas, i) ==> i !in kept
    requires id in metas
    ensures id !in kept <==> CoveredByLater(Peers(metas, id), metas[id])
  {
    DuplicatesAreTheCovered(Peers(metas, id), metas[id]);
    assert id !in kept ==> MayGo(metas, id);
    assert MustGo(metas, id) ==> id !in kept;
  }

  /** Filtering what was filtered removes nothing more. */
  lemma FilterIsIdempotent(metas: map<ULID, Meta>, kept: map<ULID, Meta>, again: map<ULID, Meta>)
    requires Keyed(metas) && WellLabelled(metas) && OnlyDuplicatesRemoved(metas, kept)
    requires forall i :: MustGo(metas, i) ==> i !in kept
    requires OnlyDuplicatesRemoved(kept, again)
    ensures again == kept
  {
    forall id | id in kept ensures id in again {
      assert Peers(kept, id) <= Peers(metas, id);
      if id !in again {
        assert MayGo(kept, id);
        assert UniformCounts(Peers(kept, id));
        CoveredIfMayBeDuplicate(Peers(kept, id), kept[id]);
        CoverIsMonotone(Peers(kept, id), Peers(metas, id), metas[id]);
        FilterIsExact(metas, kept, id);
      }
    }
  }

  /** Why one shard count is needed. Block 1 is unsharded, blocks 2 and 3 hold the same source with labels
      reading 1 of 2 and 2 of 4. They are the direct successors of block 1. Visited in this order they make
      it a duplicate, and series 3 is then nowhere; visited in the other order they do not. */
  lemma MixedCountsLoseData(a: Meta, b: Meta, c: Meta, unknown: (string, nat) -> bool)
    requires a.ulid == 1 && b.ulid == 2 && c.ulid == 3 && a.sources == b.sources == c.sources == [7]
    requires a.resolution == b.resolution == c.resolution
    requires ShardID(a) == "" && ShardID(b) != "" && ShardID(c) != ""
    requires ShardOf(b) == Some(ShardRef(0, 2)) && ShardOf(c) == Some(ShardRef(1, 4))
    ensures var metas := map[1 := a, 2 := b, 3 := c];
            IsOrderOf([b, c], DirectSuccessors(Peers(metas, 1), a)) &&
            IsOrderOf([c, b], DirectSuccessors(Peers(metas, 1), a)) &&
            Verdict("", Names([b, c])) && !Verdict("", Names([c, b])) &&
            Holds(a, 7, 3, unknown) && !Holds(b, 7, 3, unknown) && !Holds(c, 7, 3, unknown)
  {
    var metas := map[1 := a, 2 := b, 3 := c];
    assert Peers(metas, 1) == {a, b, c} by { assert metas[1] == a && metas[2] == b && metas[3] == c; }
    TwoAbove(a, b, c);
    MixedCountsMislead(b, c);
    assert Elements([b, c]) == {b, c} && Elements([c, b]) == {b, c};
  }

  lemma TwoAbove(a: Meta, b: Meta, c: Meta)
    requires a.ulid == 1 && b.ulid == 2 && c.ulid == 3 && a.sources == b.sources == c.sources
    requires ShardID(a) == "" && ShardID(b) != "" && ShardID(b) != ShardID(c)
    ensures DirectSuccessors({a, b, c}, a) == {b, c}
  {
    var blocks := {a, b, c};
    assert !Successor(blocks, b, c) && !Successor(blocks, a, a);
    assert !Successor(blocks, c, b);
    assert Direct(blocks, a, b) && Direct(blocks, a, c);
  }
}
