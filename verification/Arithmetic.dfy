/** Products and remainders. */
module Arithmetic {

  function Times(k: int, tr: int): int {
    tr * k
  }

  lemma TimesIsMonotone(a: int, b: int, tr: int)
    requires a < b && tr > 0
    ensures Times(a, tr) + tr <= Times(b, tr)
  {
    NonNegative(b - a - 1, tr);
    assert tr * (b - a - 1) == tr * b - tr * a - tr;
  }

  lemma NonNegative(x: int, y: int)
    requires x >= 0 && y >= 0
    ensures y * x >= 0
  {
  }

  lemma DivBounds(a: nat, b: nat)
    requires b > 0
    ensures b * (a / b) <= a < b * (a / b) + b
  {
  }

  lemma MultipleOfMultiple(b: int, k: int, tr: int)
    ensures Times(b, Times(k, tr)) == Times(b * k, tr)
  {
    assert (tr * k) * b == tr * (b * k);
  }

  /** A number between two neighbouring multiples of k has the difference as its remainder. */
  lemma RestIsUnique(x: nat, k: nat, q: nat, r: nat)
    requires k > 0 && x == Times(q, k) + r && r < k
    ensures x % k == r
  {
    DivBounds(x, k);
    assert x == Times(x / k, k) + x % k;
    if q < x / k { TimesIsMonotone(q, x / k, k); }
    if x / k < q { TimesIsMonotone(x / k, q, k); }
  }

  lemma MultipleHasNoRest(j: nat, r: nat, k: nat)
    requires k > 0
    ensures (Times(j, k) + r) % k == r % k
  {
    DivBounds(r, k);
    assert Times(j + r / k, k) == Times(j, k) + Times(r / k, k);
    assert Times(r / k, k) + r % k == r;
    NonNegative(j, k);
    RestIsUnique(Times(j, k) + r, k, j + r / k, r % k);
  }

  lemma MultipleOf(a: nat, b: nat, k: nat)
    requires k > 0 && b % k == 0
    ensures (a * b) % k == 0 && (b * a) % k == 0
  {
    assert b == Times(b / k, k);
    MultipleOfMultiple(a, b / k, k);
    NonNegative(a, b / k);
    MultipleHasNoRest(a * (b / k), 0, k);
    assert Times(a, b) == a * b;
  }

  lemma RestOfRest(x: nat, m: nat, k: nat)
    requires m > 0 && k > 0 && m % k == 0
    ensures (x % m) % k == x % k
  {
    var q, j := x / m, m / k;
    assert x == Times(q, m) + x % m && m == Times(j, k);
    MultipleOfMultiple(q, j, k);
    NonNegative(q, j);
    MultipleHasNoRest(q * j, x % m, k);
  }

  function Residue(hash: nat, n: nat): (i: nat)
    requires 0 < n
    ensures i < n && i == hash % n
  {
    hash % n
  }
}
