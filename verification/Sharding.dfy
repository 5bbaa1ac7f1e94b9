/** Shard ID label values: the text "i_of_N" that names the i-th (1-based) of N shards.

    Mirrors pkg/storage/sharding/label.go. Decimal text is modelled down to its characters, so that
    the parser's rejections (missing parts, non-digits, zero, index above count, values over 64 bits)
    are the real ones. */
module Sharding {
  import opened Util

  const MAX_UINT64: nat := 0xFFFF_FFFF_FFFF_FFFF

  datatype ShardRef = ShardRef(index: nat, count: nat)

  predicate IsDigit(c: char) { '0' <= c <= '9' }

  predicate AllDigits(s: string) { forall k :: 0 <= k < |s| ==> IsDigit(s[k]) }

  function DigitValue(c: char): nat
    requires IsDigit(c)
  {
    c as int - '0' as int
  }

  /** The number written by a string of decimal digits. */
  function DecimalValue(s: string): nat
    requires AllDigits(s)
  {
    if s == "" then 0 else 10 * DecimalValue(s[..|s| - 1]) + DigitValue(s[|s| - 1])
  }

  /** Decimal text of a number, without leading zeros. */
  function Decimal(n: nat): (s: string)
    ensures s != "" && AllDigits(s) && DecimalValue(s) == n
  {
    var last := [('0' as int + n % 10) as char];
    if n < 10 then last
    else
      var s := Decimal(n / 10) + last;
      assert s[..|s| - 1] == Decimal(n / 10);
      s
  }

  /** strconv.ParseUint(s, 10, 64). */
  function ParseUint(s: string): (r: Option<nat>)
    ensures r.Some? <==> s != "" && AllDigits(s) && DecimalValue(s) <= MAX_UINT64
    ensures r.Some? ==> r.value == DecimalValue(s)
  {
    if s != "" && AllDigits(s) && DecimalValue(s) <= MAX_UINT64 then Some(DecimalValue(s)) else None
  }

  /** strings.Split(s, sep) for a one-character separator. */
  function Split(s: string, sep: char): (parts: seq<string>)
    ensures |parts| >= 1
    ensures forall k :: 0 <= k < |parts| ==> sep !in parts[k]
    ensures Join(parts, sep) == s
  {
    if s == "" then [""]
    else
      var rest := Split(s[1..], sep);
      assert s == [s[0]] + s[1..];
      if s[0] == sep then
        var parts := [""] + rest;
        assert parts[1..] == rest;
        parts
      else
        var parts := [[s[0]] + rest[0]] + rest[1..];
        assert parts[1..] == rest[1..];
        parts
  }

  /** strings.Join for a one-character separator. */
  function Join(parts: seq<string>, sep: char): string
    requires |parts| >= 1
  {
    if |parts| == 1 then parts[0] else parts[0] + [sep] + Join(parts[1..], sep)
  }

  function FormatShardID(index: nat, count: nat): string {
    Decimal(index + 1) + "_of_" + Decimal(count)
  }

  function ParseShardID(val: string): (r: Option<ShardRef>)
    ensures r.Some? ==> r.value.index < r.value.count <= MAX_UINT64
  {
    var parts := Split(val, '_');
    if |parts| != 3 || parts[1] != "of" then None
    else
      match (ParseUint(parts[0]), ParseUint(parts[2]))
      case (Some(i), Some(n)) => if i == 0 || n == 0 || i > n then None else Some(ShardRef(i - 1, n))
      case _ => None
  }

  /** A string has only one way of being cut at a separator its first part does not contain. */
  lemma CutIsUnique(a: string, x: string, b: string, y: string, sep: char)
    requires sep !in a && sep !in b
    requires a + [sep] + x == b + [sep] + y
    ensures a == b && x == y
  {
    var s := a + [sep] + x;
    assert s[|a|] == sep && s[|b|] == sep;
    assert !(|b| < |a|) && !(|a| < |b|);
    assert a == s[..|a|] == b;
    assert x == s[|a| + 1..] == y;
  }

  /** Splitting undoes joining: parts that do not contain the separator come back as they were. */
  lemma {:induction false} SplitOfJoin(parts: seq<string>, sep: char)
    requires |parts| >= 1 && forall k :: 0 <= k < |parts| ==> sep !in parts[k]
    ensures Split(Join(parts, sep), sep) == parts
    decreases |parts|
  {
    JoinIsInjective(Split(Join(parts, sep), sep), parts, sep);
  }

  lemma {:induction false} JoinIsInjective(p: seq<string>, q: seq<string>, sep: char)
    requires |p| >= 1 && |q| >= 1
    requires forall k :: 0 <= k < |p| ==> sep !in p[k]
    requires forall k :: 0 <= k < |q| ==> sep !in q[k]
    requires Join(p, sep) == Join(q, sep)
    ensures p == q
    decreases |p|
  {
    assert |p| > 1 ==> Join(p, sep)[|p[0]|] == sep;
    assert |q| > 1 ==> Join(q, sep)[|q[0]|] == sep;
    if |p| > 1 && |q| > 1 {
      CutIsUnique(p[0], Join(p[1..], sep), q[0], Join(q[1..], sep), sep);
      JoinIsInjective(p[1..], q[1..], sep);
      assert p == [p[0]] + p[1..] && q == [q[0]] + q[1..];
    }
  }

  /** Every shard label the compactor writes is read back as the shard it was written for. */
  lemma ParseOfFormat(index: nat, count: nat)
    requires index < count <= MAX_UINT64
    ensures ParseShardID(FormatShardID(index, count)) == Some(ShardRef(index, count))
  {
    var parts := [Decimal(index + 1), "of", Decimal(count)];
    assert FormatShardID(index, count) == Join(parts, '_') by {
      assert Join(parts[1..], '_') == "of" + "_" + Join(parts[1..][1..], '_');
    }
    SplitOfJoin(parts, '_');
  }

  /** Distinct shards get distinct labels. */
  lemma FormatIsInjective(i: nat, n: nat, j: nat, m: nat)
    requires i < n <= MAX_UINT64 && j < m <= MAX_UINT64
    requires FormatShardID(i, n) == FormatShardID(j, m)
    ensures i == j && n == m
  {
    ParseOfFormat(i, n);
    ParseOfFormat(j, m);
  }
}
