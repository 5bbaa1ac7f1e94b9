/** The heap of the current heads of the merge's sources: the source's ordering, with the binary heap of
    Go's container/heap written out. */
module HeadHeap {
  import opened MergeSpec

  datatype SourceHead = SourceHead(rec: Record, clusterID: int, sourceIndex: nat)

  function Tag(h: SourceHead): Tagged {
    Tagged(h.clusterID, h.rec)
  }

  predicate Le(a: SourceHead, b: SourceHead) {
    NotAfter(Tag(a), Tag(b))
  }

  function Parent(k: nat): nat
    requires k > 0
  {
    (k - 1) / 2
  }

  /** Of the first n items, those with a parent at lo or later are not before it. */
  ghost predicate Ordered(s: seq<SourceHead>, lo: nat, n: nat)
    requires n <= |s|
  {
    forall k :: 0 < k < n && Parent(k) >= lo ==> Le(s[Parent(k)], s[k])
  }

  /** As Ordered, except between `at` and its children; the parent of `at` is not after those. */
  ghost predicate OrderedBelow(s: seq<SourceHead>, lo: nat, n: nat, at: nat)
    requires n <= |s|
  {
    (forall k :: 0 < k < n && Parent(k) >= lo && Parent(k) != at ==> Le(s[Parent(k)], s[k])) &&
    (forall k :: 0 < k < n && Parent(k) == at && 0 < at && Parent(at) >= lo ==> Le(s[Parent(at)], s[k]))
  }

  /** As Ordered from 0, except between `at` and its parent; the parent is not after the children of `at`. */
  ghost predicate OrderedAbove(s: seq<SourceHead>, at: nat) {
    (forall k :: 0 < k < |s| && k != at ==> Le(s[Parent(k)], s[k])) &&
    (forall k :: 0 < k < |s| && 0 < at < |s| && Parent(k) == at ==> Le(s[Parent(at)], s[k]))
  }

  function Swapped(s: seq<SourceHead>, i: nat, j: nat): (t: seq<SourceHead>)
    requires i < |s| && j < |s|
    ensures |t| == |s| && multiset(t) == multiset(s)
  {
    s[i := s[j]][j := s[i]]
  }

  lemma {:induction false} RootIsLeast(s: seq<SourceHead>, k: nat)
    requires Ordered(s, 0, |s|) && k < |s|
    ensures Le(s[0], s[k])
  {
    if k > 0 { RootIsLeast(s, Parent(k)); }
  }

  lemma RootIsLeastOfAll(s: seq<SourceHead>)
    requires s != [] && Ordered(s, 0, |s|)
    ensures forall y :: y in s ==> Le(s[0], y)
  {
    forall k | 0 <= k < |s| ensures Le(s[0], s[k]) { RootIsLeast(s, k); }
  }

  class SourceHeadHeap {
    var items: seq<SourceHead>

    constructor ()
      ensures items == []
    {
      items := [];
    }

    predicate Less(i: nat, j: nat)
      requires i < |items| && j < |items|
      reads this
    {
      var a, b := items[i].rec, items[j].rec;
      if a.timestamp != b.timestamp then a.timestamp < b.timestamp
      else items[i].clusterID < items[j].clusterID
    }

    method Swap(i: nat, j: nat)
      requires i < |items| && j < |items|
      modifies this
      ensures items == Swapped(old(items), i, j)
    {
      items := items[i := items[j]][j := items[i]];
    }

    /** Moves the item at j up to where it belongs. */
    method Up(j: nat)
      requires j < |items| && OrderedAbove(items, j)
      modifies this
      ensures Ordered(items, 0, |items|) && multiset(items) == multiset(old(items))
    {
      var at: nat := j;
      while true
        invariant at < |items| && OrderedAbove(items, at) && multiset(items) == multiset(old(items))
        decreases at
      {
        var i: nat := if at == 0 then 0 else (at - 1) / 2;
        if i == at || !Less(at, i) {
          break;
        }
        UpStep(items, at);
        Swap(i, at);
        at := i;
      }
    }

    method SmallerChild(i: nat, n: nat) returns (j: nat)
      requires 2 * i + 1 < n <= |items|
      ensures j < n && i < j && Parent(j) == i && forall k :: 0 < k < n && Parent(k) == i ==> Le(items[j], items[k])
    {
      var j1 := 2 * i + 1;
      j := j1;
      if j1 + 1 < n && Less(j1 + 1, j1) {
        j := j1 + 1;
      }
      forall k | 0 < k < n && Parent(k) == i ensures Le(items[j], items[k]) { ChildrenOf(i, k); }
    }

    /** Moves the item at i0 down, among the first n, to where it belongs. */
    method Down(i0: nat, n: nat)
      requires n <= |items| && OrderedBelow(items, i0, n, i0)
      modifies this
      ensures |items| == |old(items)| && Ordered(items, i0, n) && multiset(items) == multiset(old(items))
      ensures items[n..] == old(items)[n..]
    {
      var i: nat := i0;
      while true
        invariant i0 <= i && |items| == |old(items)| && OrderedBelow(items, i0, n, i) &&
            multiset(items) == multiset(old(items))
        invariant items[n..] == old(items)[n..]
        decreases n - i
      {
        var j1 := 2 * i + 1;
        if j1 >= n {
          forall k | 0 < k < n ensures Parent(k) != i { ChildrenOf(i, k); }
          break;
        }
        var j := SmallerChild(i, n);
        if !Less(j, i) {
          assert forall k :: 0 < k < n && Parent(k) == i ==> Le(items[i], items[k]);
          break;
        }
        DownStep(items, i0, n, i, j);
        Swap(i, j);
        i := j;
      }
    }

    /** heap.Init. */
    method Init()
      modifies this
      ensures Ordered(items, 0, |items|) && multiset(items) == multiset(old(items))
    {
      var n := |items|;
      var i: nat := n / 2;
      while i > 0
        invariant i <= n / 2 && n == |items| && Ordered(items, i, n) && multiset(items) == multiset(old(items))
      {
        i := i - 1;
        Down(i, n);
      }
    }

    /** heap.Push. */
    method Push(x: SourceHead)
      requires Ordered(items, 0, |items|)
      modifies this
      ensures Ordered(items, 0, |items|) && multiset(items) == multiset(old(items)) + multiset{x}
    {
      items := items + [x];
      Up(|items| - 1);
    }

    /** heap.Pop: takes out a least item. */
    method Pop() returns (x: SourceHead)
      requires items != [] && Ordered(items, 0, |items|)
      modifies this
      ensures x in old(items) && (forall y :: y in old(items) ==> Le(x, y))
      ensures Ordered(items, 0, |items|) && multiset(items) == multiset(old(items)) - multiset{x}
    {
      var n := |items| - 1;
      RootIsLeastOfAll(items);
      Swap(0, n);
      Down(0, n);
      x := items[n];
      WithoutLast(items, n);
      items := items[..n];
    }
  }

  lemma WithoutLast(s: seq<SourceHead>, n: nat)
    requires |s| == n + 1 && Ordered(s, 0, n)
    ensures Ordered(s[..n], 0, n) && multiset(s[..n]) == multiset(s) - multiset{s[n]}
  {
    assert s == s[..n] + [s[n]];
  }

  lemma UpStep(s: seq<SourceHead>, at: nat)
    requires 0 < at < |s| && OrderedAbove(s, at) && !Le(s[Parent(at)], s[at])
    ensures OrderedAbove(Swapped(s, Parent(at), at), Parent(at))
  {
    var p := Parent(at);
    var t := Swapped(s, p, at);
    forall k | 0 < k < |t| && k != p ensures Le(t[Parent(k)], t[k]) {
      if k != at {
        assert Le(s[Parent(k)], s[k]) && t[k] == s[k];
        assert Parent(k) != at && Parent(k) != p ==> t[Parent(k)] == s[Parent(k)];
      }
    }
    forall k | 0 < k < |t| && 0 < p && Parent(k) == p ensures Le(t[Parent(p)], t[k]) {
      assert t[Parent(p)] == s[Parent(p)] && Le(s[Parent(p)], s[p]);
      assert k != at ==> Le(s[p], s[k]) && t[k] == s[k];
    }
  }

  lemma ChildrenOf(i: nat, k: nat)
    requires k > 0
    ensures Parent(k) == i <==> k == 2 * i + 1 || k == 2 * i + 2
  {
  }

  lemma DownStep(s: seq<SourceHead>, lo: nat, n: nat, i: nat, j: nat)
    requires lo <= i < j < n <= |s| && OrderedBelow(s, lo, n, i) && Parent(j) == i && !Le(s[i], s[j])
    requires forall k :: 0 < k < n && Parent(k) == i ==> Le(s[j], s[k])
    ensures OrderedBelow(Swapped(s, i, j), lo, n, j)
  {
  }
}
