/** Sorting by a comparison, as slices.SortFunc and slices.SortStableFunc do it. */
module Sorting {
  ghost predicate TotalPreorder<T(!new)>(le: (T, T) -> bool) {
    (forall a, b :: le(a, b) || le(b, a)) && (forall a, b, c :: le(a, b) && le(b, c) ==> le(a, c))
  }

  ghost predicate SortedBy<T>(s: seq<T>, le: (T, T) -> bool) {
    forall i, j :: 0 <= i < j < |s| ==> le(s[i], s[j])
  }

  /** Places x after everything not above it. */
  function Insert<T(!new)>(s: seq<T>, x: T, le: (T, T) -> bool): (r: seq<T>)
    requires TotalPreorder(le) && SortedBy(s, le)
    ensures multiset(r) == multiset(s) + multiset{x} && SortedBy(r, le)
  {
    if s == [] then [x]
    else
      var last := s[|s| - 1];
      assert s == s[..|s| - 1] + [last];
      if le(last, x) then s + [x]
      else
        var r := Insert(s[..|s| - 1], x, le);
        StaysBelow(s[..|s| - 1], x, r, last, le);
        r + [last]
  }

  lemma StaysBelow<T>(s: seq<T>, x: T, r: seq<T>, last: T, le: (T, T) -> bool)
    requires multiset(r) == multiset(s) + multiset{x}
    requires le(x, last) && forall i :: 0 <= i < |s| ==> le(s[i], last)
    ensures forall i :: 0 <= i < |r| ==> le(r[i], last)
  {
    forall i | 0 <= i < |r| ensures le(r[i], last) {
      assert r[i] in multiset(r);
      assert r[i] in multiset(s) || r[i] == x;
    }
  }

  /** A stable sort. */
  function SortBy<T(!new)>(s: seq<T>, le: (T, T) -> bool): (r: seq<T>)
    requires TotalPreorder(le)
    ensures multiset(r) == multiset(s) && SortedBy(r, le) && |r| == |s|
  {
    if s == [] then []
    else
      assert s == s[..|s| - 1] + [s[|s| - 1]];
      var r := Insert(SortBy(s[..|s| - 1], le), s[|s| - 1], le);
      assert |multiset(r)| == |r| && |multiset(s)| == |s|;
      r
  }

  /** When the comparison tells all elements apart, there is only one sorted arrangement of them. */
  lemma {:induction false} SortIsUnique<T(!new)>(a: seq<T>, b: seq<T>, le: (T, T) -> bool)
    requires multiset(a) == multiset(b) && SortedBy(a, le) && SortedBy(b, le)
    requires forall x, y :: x in a && y in a && le(x, y) && le(y, x) ==> x == y
    ensures a == b
    decreases |a|
  {
    assert |multiset(a)| == |a| && |multiset(b)| == |b|;
    if a != [] {
      assert a[0] in multiset(a) && b[0] in multiset(b);
      FirstIsLeast(a, b[0], le);
      FirstIsLeast(b, a[0], le);
      WithoutFirst(a, b);
      SortIsUnique(a[1..], b[1..], le);
    }
  }

  lemma WithoutFirst<T>(a: seq<T>, b: seq<T>)
    requires a != [] && b != [] && a[0] == b[0] && multiset(a) == multiset(b)
    ensures multiset(a[1..]) == multiset(b[1..]) && (a[1..] == b[1..] ==> a == b)
  {
    assert a == [a[0]] + a[1..] && b == [b[0]] + b[1..];
    assert multiset(a[1..]) == multiset(a) - multiset{a[0]};
    assert multiset(b[1..]) == multiset(b) - multiset{b[0]};
  }

  lemma FirstIsLeast<T>(s: seq<T>, x: T, le: (T, T) -> bool)
    requires SortedBy(s, le) && x in multiset(s)
    ensures s != [] && x in s && (x == s[0] || le(s[0], x))
  {
    var i :| 0 <= i < |s| && s[i] == x;
  }

  ghost predicate NoRepeats<T>(s: seq<T>) {
    forall i, j :: 0 <= i < j < |s| ==> s[i] != s[j]
  }

  lemma CountAtMostOne<T>(s: seq<T>, k: nat)
    requires NoRepeats(s) && k < |s|
    ensures multiset(s)[s[k]] == 1
  {
    assert s == s[..k] + [s[k]] + s[k + 1..];
    assert s[k] !in s[..k] && s[k] !in s[k + 1..];
  }

  lemma CountAtLeastTwo<T>(s: seq<T>, i: nat, j: nat)
    requires i < j < |s| && s[i] == s[j]
    ensures multiset(s)[s[i]] >= 2
  {
    assert s == s[..j] + [s[j]] + s[j + 1..];
    assert s[..j][i] == s[i] && s[i] in s[..j];
  }

  /** Rearranging a list without repetitions brings none in, and keeps its elements. */
  lemma PermutationKeepsDistinct<T>(a: seq<T>, b: seq<T>)
    requires multiset(a) == multiset(b) && NoRepeats(a)
    ensures NoRepeats(b) && forall x :: x in a <==> x in b
  {
    forall x ensures x in a <==> x in b { assert x in a <==> x in multiset(a); }
    forall i, j | 0 <= i < j < |b| ensures b[i] != b[j] {
      if b[i] == b[j] {
        CountAtLeastTwo(b, i, j);
        var k :| 0 <= k < |a| && a[k] == b[i];
        CountAtMostOne(a, k);
      }
    }
  }
}
