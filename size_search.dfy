/**
 * The integer binary search that picks a text size (`binarySearch` in
 * AutoResizeEditText.kt), driven by a three-way size tester: a negative
 * answer means "fits", a positive one "too big", zero "exact match".
 *
 * Sizes are Kotlin `Int`s.  The search is modelled on the domain of a
 * non-negative start size and an end size above `Int.MIN_VALUE` (see
 * README, "Left out").  There `end - 1`, `mid + 1` and `mid - 1` never
 * wrap around; only `lo + hi` can, and `ushr(1)` of the wrapped sum is
 * still the true midpoint (`MidpointOfWrappedSum`).
 */
module SizeSearch {

  const IntMin: int := -0x8000_0000
  const IntMax: int := 0x7FFF_FFFF

  /** Kotlin `x.ushr(1)`: the 32-bit two's-complement value of `x`, read unsigned and halved. */
  function UShr1(x: int): (r: int)
    ensures 0 <= r <= IntMax
    ensures 0 <= x < 0x1_0000_0000 ==> r == x / 2
  {
    (x % 0x1_0000_0000) / 2
  }

  /** Kotlin `Int` addition: `x` wrapped into the 32-bit two's-complement range. */
  function Wrap32(x: int): (r: int)
    ensures IntMin <= r <= IntMax
    ensures IntMin <= x <= IntMax ==> r == x
    ensures IntMax < x < 0x1_0000_0000 ==> r == x - 0x1_0000_0000
  {
    (x - IntMin) % 0x1_0000_0000 + IntMin
  }

  /**
   * For sizes `0 <= lo <= hi <= Int.MAX_VALUE`, `lo + hi` may wrap to a
   * negative `Int`, yet `ushr(1)` of the wrapped sum is the true midpoint.
   */
  lemma MidpointOfWrappedSum(lo: int, hi: int)
    requires 0 <= lo <= hi <= IntMax
    ensures UShr1(Wrap32(lo + hi)) == (lo + hi) / 2
    ensures lo <= UShr1(Wrap32(lo + hi)) <= hi
  {
    var x := lo + hi;
    if IntMax < x {
      assert Wrap32(x) == x - 0x1_0000_0000;
      assert (x - 0x1_0000_0000) % 0x1_0000_0000 == x;
    }
  }

  /**
   * The sizes `start` and `end` on which the search is modelled: `end - 1`,
   * `mid + 1` and `mid - 1` stay within `Int`, and the midpoint is exact.
   */
  predicate InDomain(start: int, end: int)
  {
    0 <= start <= IntMax && IntMin < end <= IntMax
  }

  /** The tester accepts size `s`. */
  predicate Fits(test: int -> int, s: int)
  {
    test(s) < 0
  }

  /** Fitting is downward closed on `[start, hi]`: every size below a fitting one fits too. */
  ghost predicate Monotone(test: int -> int, start: int, hi: int)
  {
    forall a, b :: start <= a <= b <= hi && test(b) < 0 ==> test(a) < 0
  }

  /** The tester never reports an exact match on `[start, hi]`. */
  ghost predicate NeverZero(test: int -> int, start: int, hi: int)
  {
    forall s :: start <= s <= hi ==> test(s) != 0
  }

  /**
   * What the search loop returns from the state `lo`, `hi`, `lastBest`:
   * the functional reading of the `while` loop, one iteration per call.
   */
  function Search(test: int -> int, lo: int, hi: int, lastBest: int): int
    requires 0 <= lo && hi < IntMax
    decreases hi - lo + 1
  {
    if lo <= hi then
      var mid := UShr1(lo + hi);
      var cmp := test(mid);
      if cmp < 0 then Search(test, mid + 1, hi, lo)
      else if cmp > 0 then Search(test, lo, mid - 1, mid - 1)
      else mid
    else
      lastBest
  }

  /** The size `binarySearch(start, end, tester)` returns. */
  function SearchResult(test: int -> int, start: int, end: int): int
    requires InDomain(start, end)
  {
    Search(test, start, end - 1, start)
  }

  /**
   * Reference definition, independent of the search: scanning down from
   * `hi`, the first size the tester accepts, or `start - 1` when no size
   * in `[start, hi]` is accepted.
   */
  function LargestFitting(test: int -> int, start: int, hi: int): (r: int)
    requires start <= hi + 1
    ensures start - 1 <= r <= hi
    ensures r == start - 1 || Fits(test, r)
    ensures forall s :: r < s <= hi ==> !Fits(test, s)
    decreases hi - start + 1
  {
    if hi < start then start - 1
    else if Fits(test, hi) then hi
    else LargestFitting(test, start, hi - 1)
  }

  /**
   * Whatever the tester, a search over a non-empty range ends on a
   * boundary: either an exact match it was told about, or a size that is
   * `lo - 1` or was accepted, directly below a size that is `hi + 1` or
   * was rejected.  The odd `lastBest` bookkeeping does not spoil this,
   * because the last iteration always leaves `lastBest == hi == lo - 1`.
   */
  lemma {:induction false} SearchOutcome(test: int -> int, lo: int, hi: int, lastBest: int)
    requires 0 <= lo <= hi < IntMax
    ensures var r := Search(test, lo, hi, lastBest);
      && lo - 1 <= r <= hi
      && ((lo <= r && test(r) == 0)
          || ((r == lo - 1 || Fits(test, r)) && (r == hi || test(r + 1) > 0)))
    decreases hi - lo
  {
    var mid := UShr1(lo + hi);
    if test(mid) < 0 {
      if mid + 1 <= hi {
        SearchOutcome(test, mid + 1, hi, lo);
      }
    } else if test(mid) > 0 {
      if lo <= mid - 1 {
        SearchOutcome(test, lo, mid - 1, mid - 1);
      }
    }
  }

  /** The search only ever consults the tester on `[lo, hi]`. */
  lemma {:induction false} SearchReadsOnlyRange(t1: int -> int, t2: int -> int, lo: int, hi: int, lastBest: int)
    requires 0 <= lo && hi < IntMax
    requires forall s :: lo <= s <= hi ==> t1(s) == t2(s)
    ensures Search(t1, lo, hi, lastBest) == Search(t2, lo, hi, lastBest)
    decreases hi - lo + 1
  {
    if lo <= hi {
      var mid := UShr1(lo + hi);
      assert t1(mid) == t2(mid);
      if t1(mid) < 0 {
        SearchReadsOnlyRange(t1, t2, mid + 1, hi, lo);
      } else if t1(mid) > 0 {
        SearchReadsOnlyRange(t1, t2, lo, mid - 1, mid - 1);
      }
    }
  }

  /**
   * The maximum size `end` is never tested: two testers that agree on
   * `[start, end - 1]` give the same result, whatever they say about `end`.
   */
  lemma EndSizeNeverTested(t1: int -> int, t2: int -> int, start: int, end: int)
    requires InDomain(start, end)
    requires forall s :: start <= s < end ==> t1(s) == t2(s)
    ensures SearchResult(t1, start, end) == SearchResult(t2, start, end)
  {
    SearchReadsOnlyRange(t1, t2, start, end - 1, start);
  }

  /** An empty range (`end <= start`) gives back `start` itself. */
  lemma EmptyRangeGivesStart(test: int -> int, start: int, end: int)
    requires InDomain(start, end) && end <= start
    ensures SearchResult(test, start, end) == start
  {
  }

  /** When no size in a non-empty range fits, the result is `start - 1`, one below the floor. */
  lemma NothingFitsGivesStartMinusOne(test: int -> int, start: int, end: int)
    requires InDomain(start, end) && start < end
    requires forall s :: start <= s < end ==> test(s) > 0
    ensures SearchResult(test, start, end) == start - 1
  {
    SearchOutcome(test, start, end - 1, start);
  }

  /**
   * With a tester that never reports an exact match, the result of a
   * non-empty search is safe: it is `start - 1` or a size the tester accepts,
   * and the size just above it is `end` or a size the tester rejects.
   */
  lemma SearchResultIsSafe(test: int -> int, start: int, end: int)
    requires InDomain(start, end) && start < end
    requires NeverZero(test, start, end - 1)
    ensures var r := SearchResult(test, start, end);
      && start - 1 <= r < end
      && (r == start - 1 || Fits(test, r))
      && (r == end - 1 || !Fits(test, r + 1))
  {
    SearchOutcome(test, start, end - 1, start);
  }

  /**
   * With a monotone tester that never reports an exact match, the search
   * finds the largest fitting size of `[start, end - 1]`, or `start - 1`.
   */
  lemma SearchFindsLargestFitting(test: int -> int, start: int, end: int)
    requires InDomain(start, end) && start < end
    requires NeverZero(test, start, end - 1) && Monotone(test, start, end - 1)
    ensures SearchResult(test, start, end) == LargestFitting(test, start, end - 1)
  {
    var r := SearchResult(test, start, end);
    var best := LargestFitting(test, start, end - 1);
    SearchResultIsSafe(test, start, end);
    // Above r nothing fits (monotonicity from r + 1), and above best nothing fits.
    assert r < best ==> Fits(test, r + 1);
    assert best < r ==> Fits(test, r);
  }

  /**
   * The reference answer never shrinks when the tester accepts more:
   * if every size `t1` accepts is accepted by `t2`, then `t2`'s largest
   * fitting size is at least `t1`'s.
   */
  lemma LargestFittingGrows(t1: int -> int, t2: int -> int, start: int, hi: int)
    requires start <= hi + 1
    requires forall s :: start <= s <= hi && Fits(t1, s) ==> Fits(t2, s)
    ensures LargestFitting(t1, start, hi) <= LargestFitting(t2, start, hi)
  {
    var r1 := LargestFitting(t1, start, hi);
    assert start <= r1 ==> Fits(t2, r1);
  }

  /**
   * For monotone testers that never report an exact match, a tester that
   * accepts more sizes never makes the search return a smaller size.
   */
  lemma SearchGrowsWithFit(t1: int -> int, t2: int -> int, start: int, end: int)
    requires InDomain(start, end) && start < end
    requires NeverZero(t1, start, end - 1) && Monotone(t1, start, end - 1)
    requires NeverZero(t2, start, end - 1) && Monotone(t2, start, end - 1)
    requires forall s :: start <= s < end && Fits(t1, s) ==> Fits(t2, s)
    ensures SearchResult(t1, start, end) <= SearchResult(t2, start, end)
  {
    SearchFindsLargestFitting(t1, start, end);
    SearchFindsLargestFitting(t2, start, end);
    LargestFittingGrows(t1, t2, start, end - 1);
  }

  /**
   * `binarySearch`: searches `[start, end - 1]` for a size.  Returns the
   * size and, as a ghost record, every size handed to the tester in order.
   */
  method BinarySearch(start: int, end: int, test: int -> int) returns (r: int, ghost probes: seq<int>)
    requires InDomain(start, end)
    ensures r == SearchResult(test, start, end)
    ensures end <= start ==> r == start && probes == []
    ensures start < end ==> start - 1 <= r < end
    ensures forall i :: 0 <= i < |probes| ==> start <= probes[i] < end
    ensures forall i :: 0 <= i < |probes| - 1 ==> test(probes[i]) != 0
    ensures |probes| > 0 && test(probes[|probes| - 1]) == 0 ==> r == probes[|probes| - 1]
  {
    var lastBest := start;
    var lo := start;
    var hi := end - 1;
    var mid := 0;
    probes := [];
    while lo <= hi
      invariant start <= lo && hi <= end - 1
      invariant Search(test, lo, hi, lastBest) == SearchResult(test, start, end)
      invariant forall i :: 0 <= i < |probes| ==> start <= probes[i] < end
      invariant forall i :: 0 <= i < |probes| ==> test(probes[i]) != 0
      invariant end <= start ==> probes == []
      invariant start < end ==> start - 1 <= lastBest < end
      decreases hi - lo
    {
      assert 0 <= lo + hi < 0x1_0000_0000;
      mid := UShr1(lo + hi);
      assert lo <= mid <= hi;
      var midValCmp := test(mid);
      probes := probes + [mid];
      if midValCmp < 0 {
        lastBest := lo;
        lo := mid + 1;
      } else if midValCmp > 0 {
        hi := mid - 1;
        lastBest := hi;
      } else {
        r := mid;
        return;
      }
    }
    r := lastBest;
  }
}
