/** Aligned compaction time ranges. Times are int64 milliseconds in the program, unbounded here. */
module Ranges {
  import opened Arithmetic

  /** Go's integer division by a positive number truncates toward zero. */
  function GoDiv(a: int, b: int): int
    requires b > 0
  {
    if a >= 0 then a / b else -(-a / b)
  }

  /** getRangeStart: where the aligned range of length tr around a block's start begins. */
  function RangeStart(minTime: int, tr: int): int
    requires tr > 0
  {
    if minTime >= 0 then tr * GoDiv(minTime, tr) else tr * GoDiv(minTime - tr + 1, tr)
  }

  /** start is a multiple of tr. */
  ghost predicate Aligned(start: int, tr: int) {
    exists k :: start == Times(k, tr)
  }

  /** start is the start of the aligned range that time t lies in. */
  ghost predicate StartsRangeOf(start: int, t: int, tr: int) {
    Aligned(start, tr) && start <= t < start + tr
  }

  /** The range of getRangeStart is aligned and contains the block's start, negative times included. */
  lemma RangeStartIsRight(minTime: int, tr: int)
    requires tr > 0
    ensures StartsRangeOf(RangeStart(minTime, tr), minTime, tr)
  {
    if minTime >= 0 {
      DivBounds(minTime, tr);
      assert RangeStart(minTime, tr) == Times(minTime / tr, tr);
    } else {
      var a := -(minTime - tr + 1);
      DivBounds(a, tr);
      assert RangeStart(minTime, tr) == Times(-(a / tr), tr);
      assert tr * -(a / tr) == -(tr * (a / tr));
    }
  }

  /** ... and no other aligned range contains it. */
  lemma RangeStartIsUnique(start: int, t: int, tr: int)
    requires tr > 0 && StartsRangeOf(start, t, tr)
    ensures start == RangeStart(t, tr)
  {
    RangeStartIsRight(t, tr);
    AlignedRangesAreDisjoint(start, RangeStart(t, tr), tr);
  }

  /** Two aligned ranges of one length are the same or do not overlap. */
  lemma AlignedRangesAreDisjoint(s: int, t: int, tr: int)
    requires tr > 0 && Aligned(s, tr) && Aligned(t, tr) && s < t + tr && t < s + tr
    ensures s == t
  {
    var p :| s == Times(p, tr);
    var q :| t == Times(q, tr);
    if p < q { TimesIsMonotone(p, q, tr); }
    if q < p { TimesIsMonotone(q, p, tr); }
  }

  /** tr divides large, as the configuration check tests it. */
  lemma DividesAligns(tr: int, large: int)
    requires tr > 0 && large % tr == 0
    ensures Aligned(large, tr)
  {
    assert large == Times(large / tr, tr);
  }

  lemma AlignedDivides(tr: int, large: int)
    requires tr > 0 && large > 0 && Aligned(large, tr)
    ensures large % tr == 0
  {
    var k :| large == Times(k, tr);
    if k < 0 { TimesIsMonotone(k, 0, tr); }
    MultipleHasNoRest(k, 0, tr);
  }

  lemma AlignedIsTransitive(tr: int, mid: int, large: int)
    requires Aligned(mid, tr) && Aligned(large, mid)
    ensures Aligned(large, tr)
  {
    var k :| mid == Times(k, tr);
    var b :| large == Times(b, mid);
    MultipleOfMultiple(b, k, tr);
  }

  /** Config.Validate: each range is divisible by the one before. */
  predicate EachDividesNext(ranges: seq<int>)
    requires forall k :: 0 <= k < |ranges| ==> ranges[k] > 0
  {
    forall k :: 0 < k < |ranges| ==> ranges[k] % ranges[k - 1] == 0
  }

  lemma {:induction false} EachDividesLast(ranges: seq<int>, k: nat)
    requires (forall i :: 0 <= i < |ranges| ==> ranges[i] > 0) && EachDividesNext(ranges) && k < |ranges|
    ensures Aligned(ranges[|ranges| - 1], ranges[k])
    decreases |ranges| - k
  {
    if k == |ranges| - 1 {
      assert ranges[k] == Times(1, ranges[k]);
    } else {
      EachDividesLast(ranges, k + 1);
      assert ranges[k + 1] % ranges[k + 1 - 1] == 0;
      DividesAligns(ranges[k], ranges[k + 1]);
      AlignedIsTransitive(ranges[k], ranges[k + 1], ranges[|ranges| - 1]);
    }
  }

  /** When the smaller length divides the larger, the smaller range lies inside the larger one. */
  lemma RangesNest(t: int, tr: int, large: int)
    requires tr > 0 && large > 0 && Aligned(large, tr)
    ensures RangeStart(t, large) <= RangeStart(t, tr) && RangeStart(t, tr) + tr <= RangeStart(t, large) + large
  {
    RangeStartIsRight(t, tr);
    RangeStartIsRight(t, large);
    var a :| RangeStart(t, tr) == Times(a, tr);
    var b :| RangeStart(t, large) == Times(b, large);
    var k :| large == Times(k, tr);
    MultipleOfMultiple(b, k, tr);
    InsideByMultiples(a, b * k, k, tr, t);
  }

  lemma InsideByMultiples(a: int, b: int, k: int, tr: int, t: int)
    requires tr > 0 && Times(a, tr) <= t < Times(a, tr) + tr && Times(b, tr) <= t < Times(b, tr) + Times(k, tr)
    ensures Times(b, tr) <= Times(a, tr) && Times(a, tr) + tr <= Times(b, tr) + Times(k, tr)
  {
    assert Times(b + k, tr) == Times(b, tr) + Times(k, tr);
    if a < b { TimesIsMonotone(a, b, tr); } else if b < a { TimesIsMonotone(b, a, tr); }
    if b + k < a { TimesIsMonotone(b + k, a, tr); } else if a < b + k { TimesIsMonotone(a, b + k, tr); }
  }

  /** When it does not divide it, some range of the smaller length sticks out of the larger one. */
  lemma RangeSticksOut(tr: int, large: int) returns (t: int)
    requires tr > 0 && large > 0 && large % tr != 0
    ensures RangeStart(t, tr) == t && RangeStart(t, large) + large < t + tr
  {
    t := Times(large / tr, tr);
    DivBounds(large, tr);
    assert StartsRangeOf(t, t, tr);
    RangeStartIsUnique(t, t, tr);
    assert large != t by { assert large == tr * (large / tr) + large % tr; }
    NonNegative(large / tr, tr);
    assert 0 == Times(0, large);
    assert StartsRangeOf(0, t, large);
    RangeStartIsUnique(0, t, large);
  }
}
