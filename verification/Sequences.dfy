/** Filtering sequences. */
module Sequences {
  import opened Sorting

  /** The elements that satisfy p, in order. */
  function Keep<T>(s: seq<T>, p: T -> bool): seq<T> {
    if s == [] then []
    else Keep(s[..|s| - 1], p) + if p(s[|s| - 1]) then [s[|s| - 1]] else []
  }

  function Elements<T>(s: seq<T>): set<T> {
    set x | x in s
  }

  lemma SomeMember<T>(s: set<T>) returns (x: T)
    requires s != {}
    ensures x in s
  {
    x :| x in s;
  }

  lemma NoMember<T>(s: set<T>)
    requires forall x :: x !in s
    ensures s == {}
  {
  }

  lemma SubsetIsNotLarger<T>(a: set<T>, b: set<T>)
    requires a <= b
    ensures |a| <= |b| && (a < b ==> |a| < |b|)
  {
    assert b == a + (b - a);
    assert a < b ==> b - a != {};
  }

  lemma ProperSubsetIsSmaller<T>(a: set<T>, b: set<T>, x: T)
    requires a <= b && x in b && x !in a
    ensures |a| < |b|
  {
    SubsetIsNotLarger(a, b);
  }

  lemma KeepAppend<T>(s: seq<T>, x: T, p: T -> bool)
    ensures Keep(s + [x], p) == Keep(s, p) + if p(x) then [x] else []
  {
    assert (s + [x])[..|s|] == s;
  }

  lemma KeepNext<T>(s: seq<T>, i: nat, p: T -> bool)
    requires i < |s|
    ensures Keep(s[..i + 1], p) == Keep(s[..i], p) + if p(s[i]) then [s[i]] else []
  {
    KeepAppend(s[..i], s[i], p);
    assert s[..i + 1] == s[..i] + [s[i]];
  }

  lemma {:induction false} KeepMember<T>(s: seq<T>, p: T -> bool, x: T)
    ensures x in Keep(s, p) <==> x in s && p(x)
  {
    if s != [] {
      KeepMember(s[..|s| - 1], p, x);
      assert s == s[..|s| - 1] + [s[|s| - 1]];
    }
  }

  lemma KeepMembers<T(!new)>(s: seq<T>, p: T -> bool)
    ensures forall x :: x in Keep(s, p) <==> x in s && p(x)
  {
    forall x ensures x in Keep(s, p) <==> x in s && p(x) { KeepMember(s, p, x); }
  }

  /** Filtering twice is filtering by both. */
  lemma {:induction false} KeepTwice<T>(s: seq<T>, p: T -> bool, q: T -> bool, both: T -> bool)
    requires forall x :: x in s ==> both(x) == (p(x) && q(x))
    ensures Keep(Keep(s, p), q) == Keep(s, both)
  {
    if s != [] {
      var init, x := s[..|s| - 1], s[|s| - 1];
      KeepTwice(init, p, q, both);
      KeepAppend(Keep(init, p), x, q);
      assert !p(x) ==> Keep(s, p) == Keep(init, p);
    }
  }

  lemma {:induction false} KeepSame<T>(s: seq<T>, p: T -> bool, q: T -> bool)
    requires forall x :: x in s ==> p(x) == q(x)
    ensures Keep(s, p) == Keep(s, q)
  {
    if s != [] { KeepSame(s[..|s| - 1], p, q); }
  }

  lemma {:induction false} KeepNone<T>(s: seq<T>, p: T -> bool)
    requires forall x :: x in s ==> !p(x)
    ensures Keep(s, p) == []
  {
    if s != [] { KeepNone(s[..|s| - 1], p); }
  }

  lemma {:induction false} KeepSorted<T>(s: seq<T>, p: T -> bool, le: (T, T) -> bool)
    requires SortedBy(s, le)
    ensures SortedBy(Keep(s, p), le)
  {
    if s != [] {
      var init := s[..|s| - 1];
      KeepSorted(init, p, le);
      forall i | 0 <= i < |Keep(init, p)| ensures le(Keep(init, p)[i], s[|s| - 1]) {
        KeepMember(init, p, Keep(init, p)[i]);
      }
    }
  }

  lemma {:induction false} KeepNoRepeats<T>(s: seq<T>, p: T -> bool)
    requires NoRepeats(s)
    ensures NoRepeats(Keep(s, p))
  {
    if s != [] {
      KeepNoRepeats(s[..|s| - 1], p);
      KeepMember(s[..|s| - 1], p, s[|s| - 1]);
    }
  }

  lemma {:induction false} SizeOfElements<T>(s: seq<T>)
    requires NoRepeats(s)
    ensures |Elements(s)| == |s|
  {
    if s != [] {
      var init, x := s[..|s| - 1], s[|s| - 1];
      SizeOfElements(init);
      assert s == init + [x] && x !in init;
      assert Elements(s) == Elements(init) + {x};
    }
  }

  lemma {:induction false} FewElements<T>(s: seq<T>)
    ensures |Elements(s)| <= |s|
  {
    if s != [] {
      var init := s[..|s| - 1];
      FewElements(init);
      assert s == init + [s[|s| - 1]];
      assert Elements(s) == Elements(init) + {s[|s| - 1]};
    }
  }

  /** Iterating over a map: its keys in some order. */
  method KeysInSomeOrder<K, V>(m: map<K, V>) returns (keys: seq<K>)
    ensures NoRepeats(keys) && forall k :: k in keys <==> k in m
  {
    keys := [];
    var rest := m.Keys;
    while rest != {}
      invariant rest <= m.Keys
      invariant NoRepeats(keys) && forall k :: k in keys <==> k in m && k !in rest
    {
      var k :| k in rest;
      keys := keys + [k];
      rest := rest - {k};
    }
  }

  function HasKey<T, K(==)>(key: T -> K, k: K): T -> bool {
    x => key(x) == k
  }

  ghost predicate IsGroupedBy<T, K(!new)>(s: seq<T>, key: T -> K, groups: map<K, seq<T>>) {
    (forall k :: k in groups ==> groups[k] == Keep(s, HasKey(key, k)) && groups[k] != []) &&
    (forall k :: k !in groups ==> Keep(s, HasKey(key, k)) == [])
  }

  /** The loop groups[key(x)] = append(groups[key(x)], x). */
  method GroupBy<T, K(==,!new)>(s: seq<T>, key: T -> K) returns (groups: map<K, seq<T>>)
    ensures IsGroupedBy(s, key, groups)
  {
    groups := map[];
    for i := 0 to |s|
      invariant IsGroupedBy(s[..i], key, groups)
    {
      var x := s[i];
      var k := key(x);
      forall k'
        ensures Keep(s[..i + 1], HasKey(key, k')) == Keep(s[..i], HasKey(key, k')) + if k' == k then [x] else []
      {
        KeepAppend(s[..i], x, HasKey(key, k'));
        assert s[..i + 1] == s[..i] + [x];
      }
      groups := groups[k := (if k in groups then groups[k] else []) + [x]];
    }
    assert s[..|s|] == s;
  }

  lemma GroupMember<T, K(!new)>(s: seq<T>, key: T -> K, groups: map<K, seq<T>>, x: T)
    requires IsGroupedBy(s, key, groups) && x in s
    ensures key(x) in groups
  {
    KeepMember(s, HasKey(key, key(x)), x);
  }
}
