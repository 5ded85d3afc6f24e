/**
 * What the pagination loop of `getTransactions` does with a finite list of
 * pages: it requests page 1, 2, 3, ... one at a time, yields every item of
 * each page in order and stops after the first page that comes back empty.
 * Pages are numbered from 1, and every page past the end of the list is
 * empty, so the loop always stops.
 */
module Pagination {

  /** Page `n`; pages outside `1..|pages|` are empty. */
  function PageAt<T>(pages: seq<seq<T>>, n: int): seq<T> {
    if 1 <= n <= |pages| then pages[n - 1] else []
  }

  /** The page at which a loop started at page `n` stops: the first empty page from `n` on. */
  function StopPage<T>(pages: seq<seq<T>>, n: int): (k: int)
    requires 1 <= n
    ensures n <= k && (k <= |pages| + 1 || k == n)
    ensures PageAt(pages, k) == []
    decreases |pages| + 1 - n
  {
    if PageAt(pages, n) == [] then n else StopPage(pages, n + 1)
  }

  /** The stopping page is the first empty one: no empty page comes before it. */
  lemma {:induction false} StopIsFirstEmpty<T>(pages: seq<seq<T>>, n: int, j: int)
    requires 1 <= n <= j
    ensures PageAt(pages, j) == [] ==> StopPage(pages, n) <= j
    decreases j - n
  {
    if PageAt(pages, n) != [] && n < j {
      StopIsFirstEmpty(pages, n + 1, j);
    }
  }

  /** The items the loop yields from page `n` on. */
  function Yielded<T>(pages: seq<seq<T>>, n: int): seq<T>
    requires 1 <= n
    decreases |pages| + 1 - n
  {
    if PageAt(pages, n) == [] then [] else PageAt(pages, n) + Yielded(pages, n + 1)
  }

  /** The page numbers the loop requests from page `n` on, in the order it requests them. */
  function Requested<T>(pages: seq<seq<T>>, n: int): seq<int>
    requires 1 <= n
    decreases |pages| + 1 - n
  {
    if PageAt(pages, n) == [] then [n] else [n] + Requested(pages, n + 1)
  }

  /** The pages one after another. */
  function Concat<T>(pages: seq<seq<T>>): seq<T> {
    if pages == [] then [] else pages[0] + Concat(pages[1..])
  }

  /** The integers `lo, lo + 1, ..., hi - 1`. */
  function Range(lo: int, hi: int): seq<int>
    decreases hi - lo
  {
    if hi <= lo then [] else [lo] + Range(lo + 1, hi)
  }

  /** `Range(lo, hi)` holds `hi - lo` integers, the `i`-th being `lo + i`. */
  lemma {:induction false} RangeAt(lo: int, hi: int)
    requires lo <= hi
    ensures |Range(lo, hi)| == hi - lo
    ensures forall i :: 0 <= i < hi - lo ==> Range(lo, hi)[i] == lo + i
    decreases hi - lo
  {
    if lo < hi {
      RangeAt(lo + 1, hi);
    }
  }

  lemma {:induction false} RangeSnoc(lo: int, hi: int)
    requires lo <= hi
    ensures Range(lo, hi + 1) == Range(lo, hi) + [hi]
    decreases hi - lo
  {
    if lo < hi {
      RangeSnoc(lo + 1, hi);
    }
  }

  /**
   * One turn of the loop at page `page`, which the loop reaches: an empty
   * page is the stopping page and ends the run; otherwise the run yields the
   * page and goes on with the next.
   */
  lemma {:induction false} Turn<T>(pages: seq<seq<T>>, page: int)
    requires 1 <= page <= StopPage(pages, 1)
    ensures PageAt(pages, page) == [] ==>
              page == StopPage(pages, 1) && Yielded(pages, page) == [] &&
              Requested(pages, 1) == Range(1, page + 1)
    ensures PageAt(pages, page) != [] ==>
              page < StopPage(pages, 1) &&
              Yielded(pages, page) == PageAt(pages, page) + Yielded(pages, page + 1)
  {
    StopIsFirstEmpty(pages, 1, page);
    if PageAt(pages, page) == [] {
      RequestedIsRange(pages, 1);
    }
  }

  /**
   * The pages requested are `n, n + 1, ..., k`, where `k` is the first empty
   * page: consecutive, strictly increasing, `k - n + 1` requests in all.
   */
  lemma {:induction false} RequestedIsRange<T>(pages: seq<seq<T>>, n: int)
    requires 1 <= n
    ensures Requested(pages, n) == Range(n, StopPage(pages, n) + 1)
    decreases |pages| + 1 - n
  {
    var k := StopPage(pages, n);
    if PageAt(pages, n) == [] {
      assert Range(n, k + 1) == [n] + Range(n + 1, n + 1);
    } else {
      assert StopPage(pages, n + 1) == k;
      calc {
        Requested(pages, n);
        [n] + Requested(pages, n + 1);
        { RequestedIsRange(pages, n + 1); }
        [n] + Range(n + 1, k + 1);
        Range(n, k + 1);
      }
    }
  }

  /** From page 1 the loop makes exactly `k` requests, page `i + 1` being the `i`-th. */
  lemma RequestCount<T>(pages: seq<seq<T>>)
    ensures |Requested(pages, 1)| == StopPage(pages, 1)
    ensures forall i :: 0 <= i < |Requested(pages, 1)| ==> Requested(pages, 1)[i] == i + 1
  {
    RequestedIsRange(pages, 1);
    RangeAt(1, StopPage(pages, 1) + 1);
  }

  /** The items yielded from page `n` on are pages `n .. k - 1` one after another, `k` being the stopping page. */
  lemma {:induction false} YieldedIsConcat<T>(pages: seq<seq<T>>, n: int, k: int)
    requires 1 <= n <= k <= |pages| + 1 && k == StopPage(pages, n)
    ensures Yielded(pages, n) == Concat(pages[n - 1..k - 1])
    decreases k - n
  {
    if PageAt(pages, n) == [] {
      assert pages[n - 1..k - 1] == [];
    } else {
      var rest := pages[n..k - 1];
      YieldedIsConcat(pages, n + 1, k);
      assert pages[n - 1..k - 1] == [pages[n - 1]] + rest;
      assert ([pages[n - 1]] + rest)[1..] == rest;
    }
  }

  /** What the loop yields from page 1: pages `1 .. k - 1` one after another. */
  lemma YieldedFromFirstPage<T>(pages: seq<seq<T>>)
    ensures Yielded(pages, 1) == Concat(pages[..StopPage(pages, 1) - 1])
  {
    YieldedIsConcat(pages, 1, StopPage(pages, 1));
    assert pages[0..StopPage(pages, 1) - 1] == pages[..StopPage(pages, 1) - 1];
  }

  /**
   * Pages past the first empty one are never looked at: two lists of pages
   * that agree up to it are paginated alike.
   */
  lemma {:induction false} LaterPagesIgnored<T>(pages: seq<seq<T>>, other: seq<seq<T>>, n: int)
    requires 1 <= n
    requires forall j :: n <= j <= StopPage(pages, n) ==> PageAt(other, j) == PageAt(pages, j)
    ensures StopPage(other, n) == StopPage(pages, n)
    ensures Yielded(other, n) == Yielded(pages, n)
    ensures Requested(other, n) == Requested(pages, n)
    decreases |pages| + 1 - n
  {
    assert PageAt(other, n) == PageAt(pages, n);
    if PageAt(pages, n) != [] {
      assert StopPage(pages, n + 1) == StopPage(pages, n);
      LaterPagesIgnored(pages, other, n + 1);
      assert Yielded(other, n) == PageAt(other, n) + Yielded(other, n + 1);
      assert Requested(other, n) == [n] + Requested(other, n + 1);
    }
  }

  /** When no page in the list is empty, every page is yielded and `|pages| + 1` pages are requested. */
  lemma {:induction false} NoEmptyPage<T>(pages: seq<seq<T>>)
    requires forall i :: 0 <= i < |pages| ==> pages[i] != []
    ensures StopPage(pages, 1) == |pages| + 1
    ensures Yielded(pages, 1) == Concat(pages)
  {
    var k := StopPage(pages, 1);
    YieldedFromFirstPage(pages);
    assert pages[..k - 1] == pages;
  }

  /** Two full pages and then an empty one: three requests, and the items of the first two pages. */
  lemma TwoPagesThenEmpty<T>(a: T, b: T, c: T, d: T)
    ensures Requested([[a, b], [c], [], [d]], 1) == [1, 2, 3]
    ensures Yielded([[a, b], [c], [], [d]], 1) == [a, b, c]
  {
    var pages := [[a, b], [c], [], [d]];
    assert PageAt(pages, 3) == [];
    assert Requested(pages, 3) == [3] && Yielded(pages, 3) == [];
    assert PageAt(pages, 2) == [c];
    assert Requested(pages, 2) == [2, 3] && Yielded(pages, 2) == [c];
    assert PageAt(pages, 1) == [a, b];
  }
}
