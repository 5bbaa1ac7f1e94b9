/** Formatted integers, and the byte order of strings. */
module Text {
  import opened Sharding

  /** %d. */
  function IntText(n: int): string {
    Sign(n < 0) + Decimal(if n < 0 then -n else n)
  }

  function Sign(negative: bool): string {
    if negative then "-" else ""
  }

  lemma DecimalIsInjective(a: nat, b: nat)
    requires Decimal(a) == Decimal(b)
    ensures a == b
  {
    assert a == DecimalValue(Decimal(a)) == DecimalValue(Decimal(b)) == b;
  }

  lemma DecimalHasOnlyDigits(n: nat)
    ensures '-' !in Decimal(n) && '@' !in Decimal(n) && '_' !in Decimal(n) && IsDigit(Decimal(n)[0])
  {
  }

  lemma SignedCut(s: string, na: bool, da: string, x: string, nb: bool, db: string, y: string, sep: char)
    requires da != "" && db != "" && AllDigits(da) && AllDigits(db) && !IsDigit(sep)
    requires s == Sign(na) + da + [sep] + x && s == Sign(nb) + db + [sep] + y
    ensures na == nb && da == db && x == y
  {
    assert s[0] == if na then '-' else da[0];
    assert s[0] == if nb then '-' else db[0];
    var rest := if na then s[1..] else s;
    assert rest == da + [sep] + x && rest == db + [sep] + y;
    CutIsUnique(da, x, db, y, sep);
  }

  /** An integer followed by a separator and more text can be read back. */
  lemma IntTextCut(a: int, x: string, b: int, y: string, sep: char)
    requires !IsDigit(sep)
    requires IntText(a) + [sep] + x == IntText(b) + [sep] + y
    ensures a == b && x == y
  {
    var na, nb := if a < 0 then -a else a, if b < 0 then -b else b;
    SignedCut(IntText(a) + [sep] + x, a < 0, Decimal(na), x, b < 0, Decimal(nb), y, sep);
    DecimalIsInjective(na, nb);
  }

  lemma IntTextIsInjective(a: int, b: int)
    requires IntText(a) == IntText(b)
    ensures a == b
  {
    assert IntText(a) + "-" + "" == IntText(b) + "-" + "";
    IntTextCut(a, "", b, "", '-');
  }

  /** strings.Compare(a, b) <= 0. */
  predicate LexLe(a: string, b: string) {
    a == "" || (b != "" && (a[0] < b[0] || (a[0] == b[0] && LexLe(a[1..], b[1..]))))
  }

  lemma {:induction false} LexTotal(a: string, b: string)
    ensures LexLe(a, b) || LexLe(b, a)
  {
    if a != "" && b != "" && a[0] == b[0] { LexTotal(a[1..], b[1..]); }
  }

  lemma {:induction false} LexTransitive(a: string, b: string, c: string)
    requires LexLe(a, b) && LexLe(b, c)
    ensures LexLe(a, c)
  {
    if a != "" && a[0] == b[0] && b[0] == c[0] { LexTransitive(a[1..], b[1..], c[1..]); }
  }

  lemma {:induction false} LexAntisymmetric(a: string, b: string)
    requires LexLe(a, b) && LexLe(b, a)
    ensures a == b
  {
    if a != "" && b != "" {
      LexAntisymmetric(a[1..], b[1..]);
      assert a == [a[0]] + a[1..] && b == [b[0]] + b[1..];
    }
  }
}
