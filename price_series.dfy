/**
 * Price samples and the two preparation steps calculateDCA applies to them:
 * keeping the samples inside the closed date window, and sorting the kept
 * samples ascending by timestamp in place.
 */
module PriceSeries {

  /** One observed sample: an instant (milliseconds since the epoch) and a price. */
  datatype PricePoint = PricePoint(date: int, price: real)

  /** p lies in the closed window [startMs, endMs]. */
  predicate InWindow(p: PricePoint, startMs: int, endMs: int) {
    startMs <= p.date && p.date <= endMs
  }

  /** prices.filter(p => p.date >= startMs && p.date <= endMs), keeping the input order. */
  function Window(prices: seq<PricePoint>, startMs: int, endMs: int): seq<PricePoint>
  {
    if prices == [] then []
    else
      var init, last := prices[..|prices| - 1], prices[|prices| - 1];
      Window(init, startMs, endMs) + (if InWindow(last, startMs, endMs) then [last] else [])
  }

  /**
   * The kept samples are exactly the input samples in the window, each as
   * often as it occurs in the input.
   */
  lemma {:induction false} WindowContents(prices: seq<PricePoint>, startMs: int, endMs: int)
    ensures |Window(prices, startMs, endMs)| <= |prices|
    ensures forall p | p in Window(prices, startMs, endMs) :: InWindow(p, startMs, endMs)
    ensures forall p :: multiset(Window(prices, startMs, endMs))[p] ==
                        if InWindow(p, startMs, endMs) then multiset(prices)[p] else 0
  {
    if prices != [] {
      var init, last := prices[..|prices| - 1], prices[|prices| - 1];
      assert prices == init + [last];
      WindowContents(init, startMs, endMs);
    }
  }

  /** The filter keeps the input order: filtering a concatenation filters each part in turn. */
  lemma {:induction false} WindowKeepsOrder(a: seq<PricePoint>, b: seq<PricePoint>, startMs: int, endMs: int)
    ensures Window(a + b, startMs, endMs) == Window(a, startMs, endMs) + Window(b, startMs, endMs)
  {
    if b == [] {
      assert a + b == a;
    } else {
      var init, last := b[..|b| - 1], b[|b| - 1];
      WindowKeepsOrder(a, init, startMs, endMs);
      assert (a + b)[..|a + b| - 1] == a + init;
      assert (a + b)[|a + b| - 1] == last;
    }
  }

  /** Filtering by a window inside another window is filtering by the inner one alone. */
  lemma {:induction false} WindowNarrow(prices: seq<PricePoint>, startMs: int, endMs: int, lo: int, hi: int)
    requires startMs <= lo && hi <= endMs
    ensures Window(Window(prices, startMs, endMs), lo, hi) == Window(prices, lo, hi)
  {
    if prices != [] {
      var init, last := prices[..|prices| - 1], prices[|prices| - 1];
      WindowNarrow(init, startMs, endMs, lo, hi);
      var kept := if InWindow(last, startMs, endMs) then [last] else [];
      WindowKeepsOrder(Window(init, startMs, endMs), kept, lo, hi);
    }
  }

  /** Ascending by timestamp; equal timestamps are allowed. */
  predicate SortedByDate(s: seq<PricePoint>) {
    forall i, j | 0 <= i < j < |s| :: s[i].date <= s[j].date
  }

  /**
   * Inserts x into s after every element whose timestamp is not later than
   * x's, scanning from the end as insertion sort does.
   */
  function Insert(s: seq<PricePoint>, x: PricePoint): seq<PricePoint>
  {
    if s == [] || s[|s| - 1].date <= x.date then s + [x]
    else Insert(s[..|s| - 1], x) + [s[|s| - 1]]
  }

  /** Insert adds exactly x: the result is a permutation of s with x added. */
  lemma {:induction false} InsertPermutes(s: seq<PricePoint>, x: PricePoint)
    ensures multiset(Insert(s, x)) == multiset(s) + multiset{x}
  {
    if s != [] && s[|s| - 1].date > x.date {
      var init, last := s[..|s| - 1], s[|s| - 1];
      InsertPermutes(init, x);
      assert s == init + [last];
    }
  }

  /** Inserting into a date-ordered sequence keeps it date-ordered. */
  lemma {:induction false} InsertKeepsSorted(s: seq<PricePoint>, x: PricePoint)
    requires SortedByDate(s)
    ensures SortedByDate(Insert(s, x))
  {
    if s != [] && s[|s| - 1].date > x.date {
      var init, last := s[..|s| - 1], s[|s| - 1];
      InsertKeepsSorted(init, x);
      InsertPermutes(init, x);
      var a := Insert(init, x);
      forall k | 0 <= k < |a| ensures a[k].date <= last.date {
        assert a[k] in multiset(a);
        assert a[k] in multiset(init) || a[k] == x;
        if a[k] != x {
          var m :| 0 <= m < |init| && init[m] == a[k];
          assert s[m] == a[k];
        }
      }
      assert Insert(s, x) == a + [last];
    }
  }

  /**
   * The result of relevantPrices.sort((a, b) => a.date - b.date): a stable
   * sort by timestamp, as insertion sort computes it.
   */
  function SortByDate(s: seq<PricePoint>): seq<PricePoint>
  {
    if s == [] then [] else Insert(SortByDate(s[..|s| - 1]), s[|s| - 1])
  }

  /** Sorting keeps exactly the samples of s. */
  lemma {:induction false} SortByDatePermutes(s: seq<PricePoint>)
    ensures multiset(SortByDate(s)) == multiset(s)
  {
    if s != [] {
      var init, last := s[..|s| - 1], s[|s| - 1];
      assert s == init + [last];
      SortByDatePermutes(init);
      InsertPermutes(SortByDate(init), last);
    }
  }

  /** The sorted sequence is in date order and holds exactly the samples of s. */
  lemma {:induction false} SortByDateSortsAndPermutes(s: seq<PricePoint>)
    ensures SortedByDate(SortByDate(s))
    ensures multiset(SortByDate(s)) == multiset(s)
  {
    SortByDatePermutes(s);
    if s != [] {
      var init, last := s[..|s| - 1], s[|s| - 1];
      SortByDateSortsAndPermutes(init);
      InsertKeepsSorted(SortByDate(init), last);
    }
  }

  /**
   * Insertion is stable: among the samples with timestamp t, the inserted
   * one comes after those already present.
   */
  lemma {:induction false} InsertStable(s: seq<PricePoint>, x: PricePoint, t: int)
    ensures Window(Insert(s, x), t, t) == Window(s, t, t) + Window([x], t, t)
  {
    WindowKeepsOrder(s, [x], t, t);
    if s != [] && s[|s| - 1].date > x.date {
      var init, last := s[..|s| - 1], s[|s| - 1];
      assert s == init + [last];
      InsertStable(init, x, t);
      WindowKeepsOrder(Insert(init, x), [last], t, t);
      WindowKeepsOrder(init, [last], t, t);
      WindowKeepsOrder(init, [x], t, t);
    }
  }

  /**
   * The sort is stable: the samples that share a timestamp come out in the
   * order they went in.
   */
  lemma {:induction false} SortByDateStable(s: seq<PricePoint>, t: int)
    ensures Window(SortByDate(s), t, t) == Window(s, t, t)
  {
    if s != [] {
      var init, last := s[..|s| - 1], s[|s| - 1];
      assert s == init + [last];
      SortByDateStable(init, t);
      InsertStable(SortByDate(init), last, t);
      WindowKeepsOrder(init, [last], t, t);
    }
  }

  /** Sorting leaves a sequence that is already in date order unchanged. */
  lemma {:induction false} SortSortedIsIdentity(s: seq<PricePoint>)
    requires SortedByDate(s)
    ensures SortByDate(s) == s
  {
    if s != [] {
      var init, last := s[..|s| - 1], s[|s| - 1];
      assert s == init + [last];
      assert SortedByDate(init) by {
        forall i, j | 0 <= i < j < |init| ensures init[i].date <= init[j].date {
          assert init[i] == s[i] && init[j] == s[j];
        }
      }
      SortSortedIsIdentity(init);
      assert init == [] || init[|init| - 1].date <= last.date by {
        if init != [] {
          assert init[|init| - 1] == s[|s| - 2];
        }
      }
      assert Insert(init, last) == init + [last];
    }
  }

  /**
   * Insert places x right after the last element that is not later than x:
   * when every element from position j on is later than x and the one before
   * j is not, x lands at j.
   */
  lemma {:induction false} InsertAt(s: seq<PricePoint>, x: PricePoint, j: nat)
    requires j <= |s|
    requires forall k | j <= k < |s| :: s[k].date > x.date
    requires j == 0 || s[j - 1].date <= x.date
    ensures Insert(s, x) == s[..j] + [x] + s[j..]
  {
    if j < |s| {
      var init := s[..|s| - 1];
      InsertAt(init, x, j);
      assert init[..j] == s[..j];
      assert init[j..] + [s[|s| - 1]] == s[j..];
    } else {
      assert s[..j] == s;
    }
  }

  /** After the scan stopped at j and x was written there, the prefix is Insert(sorted, x). */
  lemma InsertionPlaced(sorted: seq<PricePoint>, x: PricePoint, j: nat, b: seq<PricePoint>)
    requires j <= |sorted| < |b|
    requires forall k | 0 <= k < j :: b[k] == sorted[k]
    requires b[j] == x
    requires forall k | j < k <= |sorted| :: b[k] == sorted[k - 1]
    requires forall k | j <= k < |sorted| :: sorted[k].date > x.date
    requires j == 0 || sorted[j - 1].date <= x.date
    ensures b[..|sorted| + 1] == Insert(sorted, x)
  {
    InsertAt(sorted, x, j);
    var expected := sorted[..j] + [x] + sorted[j..];
    forall k | 0 <= k <= |sorted| ensures b[k] == expected[k] {
      if k > j {
        assert expected[k] == sorted[j..][k - j - 1];
      }
    }
  }

  /**
   * One insertion-sort step: moves a[i] down past the later elements of
   * a[..i], so that a[..i + 1] becomes Insert(a[..i], a[i]).
   */
  method InsertInPlace(a: array<PricePoint>, i: nat)
    requires i < a.Length
    modifies a
    ensures a[..i + 1] == Insert(old(a[..i]), old(a[i]))
    ensures forall k | i < k < a.Length :: a[k] == old(a[k])
  {
    ghost var sorted := a[..i];
    var x := a[i];
    var j := i;
    while j > 0 && a[j - 1].date > x.date
      invariant 0 <= j <= i
      invariant forall k | 0 <= k < j :: a[k] == sorted[k]
      invariant forall k | j < k <= i :: a[k] == sorted[k - 1]
      invariant forall k | j <= k < i :: sorted[k].date > x.date
      invariant forall k | i < k < a.Length :: a[k] == old(a[k])
    {
      a[j] := a[j - 1];
      j := j - 1;
    }
    a[j] := x;
    InsertionPlaced(sorted, x, j, a[..]);
  }

  /** Sorts a in place, ascending by timestamp, keeping equal timestamps in their order. */
  method SortByDateInPlace(a: array<PricePoint>)
    modifies a
    ensures a[..] == SortByDate(old(a[..]))
  {
    ghost var orig := a[..];
    for i := 0 to a.Length
      invariant a[..i] == SortByDate(orig[..i])
      invariant forall k | i <= k < a.Length :: a[k] == orig[k]
    {
      InsertInPlace(a, i);
      assert orig[..i + 1][..i] == orig[..i];
    }
    assert a[..] == a[..a.Length];
    assert orig == orig[..a.Length];
  }
}
