/** The transitive reduction of a strict order on positions 0, 1, 2, ... */
module Reduction {
  type Order = (nat, nat) -> bool

  ghost predicate Between(r: Order, p: nat, d: nat, q: nat) {
    r(p, d) && r(d, q)
  }

  ghost predicate Strict(r: Order) {
    (forall p, q :: r(p, q) ==> p < q) && (forall p, d, q :: Between(r, p, d, q) ==> r(p, q))
  }

  /** q is above p with nothing in between. */
  ghost predicate Edge(r: Order, p: nat, q: nat) {
    r(p, q) && forall d :: !Between(r, p, d, q)
  }

  /** Everything above p is at or above the far end of an edge of p. */
  lemma {:induction false} EdgeExists(r: Order, p: nat, q: nat) returns (s: nat)
    requires Strict(r) && r(p, q)
    ensures Edge(r, p, s) && (s == q || r(s, q))
    decreases q
  {
    if d :| Between(r, p, d, q) {
      s := EdgeExists(r, p, d);
      assert s != d ==> Between(r, s, d, q);
    } else {
      s := q;
    }
  }

  /** q is reached from p along edges. */
  ghost predicate Path(r: Order, path: seq<nat>) {
    |path| >= 1 && forall i :: 0 <= i < |path| - 1 ==> Edge(r, path[i], path[i + 1])
  }

  /** Along edges one reaches exactly what the order says, so the edges say no less than the order. */
  lemma {:induction false} EdgesReach(r: Order, p: nat, q: nat) returns (path: seq<nat>)
    requires Strict(r) && r(p, q)
    ensures Path(r, path) && path[0] == p && path[|path| - 1] == q
    decreases q - p
  {
    var s := EdgeExists(r, p, q);
    if s == q {
      path := [p, q];
    } else {
      var rest := EdgesReach(r, s, q);
      path := [p] + rest;
    }
  }

  lemma {:induction false} PathStaysBetween(r: Order, path: seq<nat>)
    requires Strict(r) && Path(r, path)
    ensures forall i :: 0 <= i < |path| ==> path[0] <= path[i] <= path[|path| - 1]
    decreases |path|
  {
    if |path| > 1 {
      var rest := path[1..];
      assert Edge(r, path[0], path[1]);
      forall i | 0 <= i < |rest| - 1 ensures Edge(r, rest[i], rest[i + 1]) {
        assert Edge(r, path[i + 1], path[i + 1 + 1]);
      }
      PathStaysBetween(r, rest);
      forall i | 0 <= i < |path| ensures path[0] <= path[i] <= path[|path| - 1] {
        assert i > 0 ==> path[i] == rest[i - 1];
      }
    }
  }

  /** ... and no more. */
  lemma {:induction false} PathsStayInOrder(r: Order, path: seq<nat>)
    requires Strict(r) && Path(r, path) && |path| >= 2
    ensures r(path[0], path[|path| - 1])
    decreases |path|
  {
    assert Edge(r, path[0], path[1]);
    if |path| > 2 {
      assert Path(r, path[1..]) by {
        forall i | 0 <= i < |path| - 2 ensures Edge(r, path[1..][i], path[1..][i + 1]) {
          assert Edge(r, path[i + 1], path[i + 2]);
        }
      }
      PathsStayInOrder(r, path[1..]);
      assert Between(r, path[0], path[1], path[|path| - 1]);
    }
  }
}

/** The shared-node successor graph: heap nodes, and the recursive in-place insertion that keeps the
    graph equal to the transitive reduction of "included in, and inserted later".

    The root is at position 0, and the block inserted k-th (from 1) at position k. */
module DedupGraph {
  import opened Util
  import opened Sharding
  import opened Block
  import opened Bloom
  import opened Sorting
  import opened Sequences
  import opened DedupSpec
  import opened Verdicts
  import opened Reduction

  // ---------- nodes ----------

  /** One block with its direct successors. The node without metadata is the root. */
  class Node {
    const meta: Option<Meta>
    const shardID: string
    const sources: set<ULID>
    const bloom: Words
    ghost const hash: ULID -> nat
    ghost const pos: nat

    var successors: map<ULID, Node>

    ghost predicate Valid() {
      meta.Some? ==>
        shardID == ShardID(meta.value) && sources == SourceSet(meta.value) && IsFilterOf(bloom, hash, sources)
    }

    constructor (hash: ULID -> nat, m: Option<Meta>, ghost pos: nat)
      ensures Valid() && this.hash == hash && meta == m && this.pos == pos && successors == map[]
    {
      var shard, srcs := "", {};
      var filter := new BloomFilter();
      if m.Some? {
        shard := ShardID(m.value);
        for i := 0 to |m.value.sources|
          invariant filter.Valid() && fresh(filter) && fresh(filter.words)
          invariant forall s :: s in srcs <==> s in m.value.sources[..i]
          invariant IsFilterOf(filter.Contents(), hash, srcs)
        {
          var id := m.value.sources[i];
          if id !in srcs {
            filter.Add(hash, id, srcs);
            srcs := srcs + {id};
          }
        }
        assert m.value.sources[..|m.value.sources|] == m.value.sources;
      }
      meta, shardID, sources, bloom := m, shard, srcs, filter.Contents();
      this.hash, this.pos := hash, pos;
      successors := map[];
    }

    /** The inclusion test with its two shortcuts agrees with the plain one, for every hash function. */
    method IsIncludedIn(other: Node) returns (included: bool)
      requires Valid() && other.Valid() && hash == other.hash && other.meta.Some?
      ensures included <==> meta.None? || Included(meta.value, other.meta.value)
    {
      if meta.None? {
        return true;
      }
      if shardID != "" && shardID != other.shardID {
        return false;
      }
      if |other.sources| < |sources| {
        if sources <= other.sources { SubsetIsNotLarger(sources, other.sources); }
        return false;
      }
      var bits := Bloom.IsIncludedIn(bloom, other.bloom);
      if !bits {
        if sources <= other.sources {
          SubsetHasIncludedFilter(hash, sources, bloom, other.sources, other.bloom);
        }
        return false;
      }
      var rest := sources;
      while rest != {}
        invariant rest <= sources
        invariant sources - rest <= other.sources
      {
        var id :| id in rest;
        if id !in other.sources {
          return false;
        }
        rest := rest - {id};
      }
      return true;
    }

    /** Adds other, the last of the nodes, below this node wherever the reduction wants it.

        The map successors is iterated in any order. Every node keeps the edges it had, gets no edge
        the reduction does not have, and the nodes at or below this one get their edge to other. */
    method AddSuccessorIfPossible(other: Node, ghost g: Layout) returns (added: bool)
      requires g.Valid() && pos < g.last && this == g.nodes[pos] && other == g.nodes[g.last]
      requires g.Consistent()
      modifies g.nodes
      ensures added <==> g.r(pos, g.last)
      ensures g.Consistent() && g.Grew(pos)
      ensures added ==> g.NewEdges(pos)
      decreases g.last - pos, 1
    {
      if this == other {
        return false;
      }
      assert g.nodes[pos].Valid() && g.nodes[g.last].Valid();
      var included := IsIncludedIn(other);
      assert included <==> g.Inc(pos, g.last);
      if !included {
        return false;
      }
      if other.meta.value.ulid in successors {
        g.AlreadyDirect(pos);
        return true;
      }
      added := AddBelowSuccessors(other, g);
      if !added {
        AttachSuccessor(other, g);
      }
      return true;
    }

    /** Makes other a direct successor of this node, which the reduction must want. */
    method AttachSuccessor(other: Node, ghost g: Layout)
      requires g.Valid() && pos < g.last && this == g.nodes[pos] && other == g.nodes[g.last]
      requires g.Consistent() && Edge(g.r, pos, g.last)
      modifies this
      ensures g.Consistent() && g.NewEdges(pos)
      ensures successors == old(successors)[g.id(g.last) := other]
    {
      assert g.Sound(pos) && g.HasEdges(pos, g.last);
      successors := successors[other.meta.value.ulid := other];
      assert g.Sound(pos);
      g.AlreadyDirect(pos);
    }

    /** The loop over the successors: other is added below each of them that allows it. */
    method AddBelowSuccessors(other: Node, ghost g: Layout) returns (added: bool)
      requires g.Valid() && pos < g.last && this == g.nodes[pos] && other == g.nodes[g.last]
      requires g.Consistent() && g.id(g.last) !in successors && g.r(pos, g.last)
      modifies g.nodes
      ensures g.Consistent() && g.Grew(pos + 1)
      ensures added ==> g.NewEdges(pos)
      ensures !added <==> Edge(g.r, pos, g.last)
      decreases g.last - pos, 0
    {
      added := false;
      var rest := successors.Keys;
      assert g.HasEdges(pos, g.last);
      while rest != {}
        invariant rest <= successors.Keys
        invariant g.Consistent() && g.Grew(pos + 1)
        invariant forall s :: 0 < s < g.last && Edge(g.r, pos, s) && g.id(s) !in rest && g.r(s, g.last) ==>
                    added && g.NewEdges(s)
        invariant added ==> !Edge(g.r, pos, g.last)
      {
        var id :| id in rest;
        var s := successors[id];
        assert g.Sound(pos);
        var below := s.AddSuccessorIfPossible(other, g);
        if below {
          assert Between(g.r, pos, s.pos, g.last);
          added := true;
        }
        rest := rest - {id};
      }
      g.AllBelowDone(pos, added);
    }

    ghost function SuccessorIDs(): set<string>
      reads this
    {
      set id | id in successors :: successors[id].shardID
    }

    /** order visits every successor once: an order in which the map may be iterated. */
    ghost predicate Visits(order: seq<ULID>)
      reads this
    {
      NoRepeats(order) && forall id :: id in order <==> id in successors
    }

    ghost function NamesIn(order: seq<ULID>): seq<string>
      requires forall id :: id in order ==> id in successors
      reads this
    {
      seq(|order|, i requires 0 <= i < |order| && order[i] in successors reads this => successors[order[i]].shardID)
    }

    /** Whether the successors together contain this block, as found in this order. The panic is out of
        reach. */
    method IsFullyIncludedInSuccessors(order: seq<ULID>) returns (full: bool)
      requires Visits(order)
      requires forall id :: id in successors ==> shardID == "" || successors[id].shardID == shardID
      ensures full <==> Verdict(shardID, NamesIn(order))
    {
      assert |order| > 0 ==> order[0] in successors;
      if successors == map[] {
        return false;
      }
      ghost var any :| any in successors;
      assert any in order;
      if shardID != "" {
        for i := 0 to |order| {
          if successors[order[i]].shardID != shardID {
            assert false; // panic("successor has different shardID!")
          }
        }
        return true;
      }
      full := AllShardsCovered(order);
    }

    /** The part of isFullyIncludedInSuccessors for a block without shard. */
    method AllShardsCovered(order: seq<ULID>) returns (full: bool)
      requires forall id :: id in order ==> id in successors
      ensures full <==> VerdictIn(NamesIn(order), 0, {})
    {
      var shardCount, shards := 0, {};
      ghost var names := NamesIn(order);
      for i := 0 to |order|
        invariant VerdictIn(names, 0, {}) <==> VerdictIn(names[i..], shardCount, shards)
      {
        var s := successors[order[i]];
        assert names[i..][0] == s.shardID && names[i..][1..] == names[i + 1..];
        if s.shardID == "" {
          return true;
        }
        var ref := ParseShardID(s.shardID);
        if ref.None? {
          return false;
        }
        if shardCount == 0 {
          shardCount := ref.value.count;
        }
        shards := shards + {ref.value.index};
      }
      return |shards| == shardCount;
    }

    /** Collects the blocks that are duplicates, at and below this node. The ghost may and must bound
        the verdict at each position. */
    method GetDuplicateBlocks(output: set<ULID>, ghost g: Layout, ghost may: nat -> bool, ghost must: nat -> bool)
      returns (out: set<ULID>)
      requires g.Valid() && g.Full() && pos <= g.last && this == g.nodes[pos] && g.Verdicts(may, must)
      ensures output <= out
      ensures forall id :: id in out && id !in output ==> exists n :: 0 < n <= g.last && g.id(n) == id && may(n)
      ensures forall n :: 0 < n <= g.last && (n == pos || g.r(pos, n)) && must(n) ==> g.id(n) in out
      decreases g.last - pos, 1
    {
      out := output;
      if meta.Some? {
        var full := IsDuplicate(g, may, must);
        if full {
          out := out + {meta.value.ulid};
          assert g.id(pos) == meta.value.ulid && may(pos);
        }
      }
      out := DuplicatesBelow(out, g, may, must);
    }

    /** isFullyIncludedInSuccessors of a node of the finished graph. */
    method IsDuplicate(ghost g: Layout, ghost may: nat -> bool, ghost must: nat -> bool) returns (full: bool)
      requires g.Valid() && g.Full() && 0 < pos <= g.last && this == g.nodes[pos] && g.Verdicts(may, must)
      ensures full ==> may(pos)
      ensures must(pos) ==> full
    {
      assert g.nodes[pos].Valid();
      g.SuccessorsAreEdges(pos);
      var order := KeysInSomeOrder(successors);
      full := IsFullyIncludedInSuccessors(order);
      NamesAreSuccessorIDs(order);
      VerdictIsBounded(shardID, NamesIn(order));
    }

    lemma NamesAreSuccessorIDs(order: seq<ULID>)
      requires Visits(order)
      ensures Elements(NamesIn(order)) == SuccessorIDs()
    {
      forall s | s in SuccessorIDs() ensures s in NamesIn(order) {
        var id :| id in successors && successors[id].shardID == s;
        assert id in order;
        var i :| 0 <= i < |order| && order[i] == id;
        assert NamesIn(order)[i] == s;
      }
    }

    method DuplicatesBelow(output: set<ULID>, ghost g: Layout, ghost may: nat -> bool, ghost must: nat -> bool)
      returns (out: set<ULID>)
      requires g.Valid() && g.Full() && pos <= g.last && this == g.nodes[pos] && g.Verdicts(may, must)
      ensures output <= out
      ensures forall id :: id in out && id !in output ==> exists n :: 0 < n <= g.last && g.id(n) == id && may(n)
      ensures forall n :: 0 < n <= g.last && g.r(pos, n) && must(n) ==> g.id(n) in out
      decreases g.last - pos, 0
    {
      out := output;
      var rest := successors.Keys;
      assert g.Sound(pos) && g.HasEdges(pos, g.last + 1);
      while rest != {}
        invariant rest <= successors.Keys && output <= out
        invariant forall id :: id in out && id !in output ==> exists n :: 0 < n <= g.last && g.id(n) == id && may(n)
        invariant forall s, n | 0 < s <= g.last && 0 < n <= g.last && Edge(g.r, pos, s) && (n == s || g.r(s, n)) ::
                    g.id(s) !in rest && must(n) ==> g.id(n) in out
      {
        var id :| id in rest;
        out := successors[id].GetDuplicateBlocks(out, g, may, must);
        rest := rest - {id};
      }
      forall n | 0 < n <= g.last && g.r(pos, n) && must(n) ensures g.id(n) in out {
        var s := EdgeExists(g.r, pos, n);
      }
    }
  }

  /** The nodes in insertion order, the root first; id gives the ULID at a position, index undoes it.
      The node at position last is the one being added. */
  datatype Layout = Layout(nodes: seq<Node>, last: nat, r: Order, id: nat -> ULID, index: ULID -> nat) {

    /** The block at q was inserted after the one at p and includes it. The root includes everything. */
    ghost predicate Inc(p: nat, q: nat) {
      p < q < |nodes| && nodes[q].meta.Some? &&
      (nodes[p].meta.None? || Included(nodes[p].meta.value, nodes[q].meta.value))
    }

    ghost predicate Valid() {
      |nodes| == last + 1 && Strict(r) &&
      (forall n :: 0 <= n <= last ==> nodes[n].pos == n) &&
      (forall n {:trigger nodes[n].Valid()} :: 0 <= n <= last ==> nodes[n].Valid() && nodes[n].hash == nodes[0].hash) &&
      nodes[0].meta.None? &&
      (forall n {:trigger nodes[n].meta} :: 0 < n <= last ==>
        nodes[n].meta.Some? && nodes[n].meta.value.ulid == id(n)) &&
      (forall n {:trigger id(n)} :: 0 < n <= last ==> index(id(n)) == n) &&
      (forall p: nat, q: nat {:trigger Inc(p, q)} :: q <= last ==> (r(p, q) <==> Inc(p, q)))
    }

    /** Every successor of the node at n is one the reduction gives it. */
    ghost predicate Sound(n: nat)
      requires n < |nodes|
      reads nodes[n]
    {
      forall u :: u in nodes[n].successors ==>
        var q := index(u);
        Edge(r, n, q) && q < |nodes| && nodes[n].successors[u] == nodes[q] && u == id(q)
    }

    /** The node at n has all its edges to positions before m. */
    ghost predicate HasEdges(n: nat, m: nat)
      requires n < |nodes|
      reads nodes[n]
    {
      forall q :: 0 < q < m && Edge(r, n, q) ==> id(q) in nodes[n].successors
    }

    /** Every node at or below p that should have an edge to the last block has it. */
    ghost predicate NewEdges(p: nat)
      reads nodes
    {
      forall n :: 0 <= n < |nodes| && (n == p || r(p, n)) && Edge(r, n, last) ==> id(last) in nodes[n].successors
    }

    /** Before the last block is in, every node has exactly the edges to the blocks before it, and
        perhaps already a right one to the last block. */
    ghost predicate Consistent()
      reads nodes
    {
      forall n :: 0 <= n < last && n < |nodes| ==> Sound(n) && HasEdges(n, last)
    }

    /** All nodes have exactly the edges of the reduction. */
    ghost predicate Full()
      reads nodes
    {
      forall n :: 0 <= n <= last && n < |nodes| ==> Sound(n) && HasEdges(n, last + 1)
    }

    /** The shard IDs the reduction has right above position n. */
    ghost function IDsAbove(n: nat): set<string> {
      set q | 0 < q <= last && q < |nodes| && Edge(r, n, q) :: nodes[q].shardID
    }

    /** may and must bound the verdict the filter can reach at each position. */
    ghost predicate Verdicts(may: nat -> bool, must: nat -> bool) {
      forall n {:trigger nodes[n].Valid()} :: 0 < n <= last && n < |nodes| ==>
        (MayBeDuplicate(nodes[n].shardID, IDsAbove(n)) ==> may(n)) &&
        (must(n) ==> MustBeDuplicate(nodes[n].shardID, IDsAbove(n)))
    }

    lemma SuccessorsAreEdges(n: nat)
      requires Valid() && Full() && 0 < n <= last
      ensures nodes[n].SuccessorIDs() == IDsAbove(n)
      ensures forall u :: u in nodes[n].successors ==>
                nodes[n].shardID == "" || nodes[n].successors[u].shardID == nodes[n].shardID
    {
      assert Sound(n) && HasEdges(n, last + 1) && nodes[n].Valid();
      forall u | u in nodes[n].successors
        ensures nodes[n].shardID == "" || nodes[n].successors[u].shardID == nodes[n].shardID
      {
        assert nodes[index(u)].Valid() && Inc(n, index(u));
      }
      forall q | 0 < q <= last && Edge(r, n, q) ensures nodes[q].shardID in nodes[n].SuccessorIDs() {
        assert nodes[n].successors[id(q)] == nodes[q];
      }
    }

    /** Nodes only gained successors; those before position p and the last one did not change. */
    twostate predicate Grew(p: nat)
      reads nodes
    {
      (forall n :: 0 <= n < |nodes| ==> old(nodes[n].successors.Keys) <= nodes[n].successors.Keys) &&
      (forall n :: 0 <= n < |nodes| && (n < p || n == last) ==> nodes[n].successors == old(nodes[n].successors))
    }

    /** A node with the edge to the last block has nothing in between to take care of. */
    lemma AlreadyDirect(p: nat)
      requires Valid() && p < last && Sound(p) && id(last) in nodes[p].successors
      ensures NewEdges(p)
    {
      forall n | r(p, n) ensures !Edge(r, n, last) { assert !Between(r, p, n, last); }
    }

    /** What is needed below p is done once it is done below each of p's successors. */
    lemma AllBelowDone(p: nat, added: bool)
      requires Valid() && p < last && r(p, last)
      requires forall s :: 0 < s < last && Edge(r, p, s) && r(s, last) ==> added && NewEdges(s)
      requires added ==> !Edge(r, p, last)
      ensures added ==> NewEdges(p)
      ensures !added ==> Edge(r, p, last)
    {
      forall n: nat | r(p, n) && r(n, last) ensures added && (Edge(r, n, last) ==> id(last) in nodes[n].successors) {
        var s := EdgeExists(r, p, n);
        assert s != n ==> Between(r, s, n, last);
        assert NewEdges(s);
      }
      assert !added ==> forall d :: !Between(r, p, d, last);
    }
  }
}
