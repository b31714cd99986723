/** The page window the list endpoints hand to the store:
    `page ? parseInt(page) : 1`, then `take: PAGE_SIZE` rows after
    `skip: (page - 1) * PAGE_SIZE` of them. */
module Pagination {
  import opened Common

  /** The requested page; an absent or empty parameter is page 1. */
  function PageNumber(page: Option<int>): int
  {
    if page.None? then 1 else page.value
  }

  function Skip(page: int, size: nat): int
  {
    (page - 1) * size
  }

  /** The rows of `xs` a query with `take: size, skip: Skip(page, size)` returns. */
  function Window<T>(xs: seq<T>, page: int, size: nat): (w: seq<T>)
    requires page >= 1
    ensures |w| <= size
    ensures Skip(page, size) >= |xs| ==> w == []
    ensures Skip(page, size) + size <= |xs| ==> |w| == size
    ensures forall i :: 0 <= i < |w| ==> Skip(page, size) + i < |xs| && w[i] == xs[Skip(page, size) + i]
  {
    var s := Skip(page, size);
    if s >= |xs| then []
    else xs[s..if s + size <= |xs| then s + size else |xs|]
  }

  /** Page `page` covers position `k` of the ordered rows. */
  predicate OnPage(k: int, page: int, size: nat)
  {
    Skip(page, size) <= k < Skip(page, size) + size
  }

  /** The window of a page holds exactly the rows at the positions it covers. */
  lemma WindowIsOnPage<T>(xs: seq<T>, page: int, size: nat, k: int)
    requires page >= 1 && 0 <= k < |xs|
    ensures OnPage(k, page, size) <==> Skip(page, size) <= k < Skip(page, size) + |Window(xs, page, size)|
  {
  }

  lemma SkipGap(low: int, high: int, size: nat)
    requires low < high
    ensures Skip(high, size) >= Skip(low, size) + size
  {
    var d := high - low - 1;
    assert d >= 0;
    assert d * size >= 0;
    assert Skip(high, size) == (low - 1) * size + d * size + size;
  }

  /** Two different pages never cover the same row. */
  lemma PagesAreDisjoint(page1: int, page2: int, size: nat, k: int)
    requires page1 != page2
    ensures !(OnPage(k, page1, size) && OnPage(k, page2, size))
  {
    if page1 < page2 {
      SkipGap(page1, page2, size);
    } else {
      SkipGap(page2, page1, size);
    }
  }

  /** Every row is on some page: row `k` is slot `k % size` of page
      `k / size + 1`. */
  lemma PagesCoverEveryRow<T>(xs: seq<T>, k: int, size: nat)
    requires size > 0 && 0 <= k < |xs|
    ensures var page := k / size + 1;
      && Skip(page, size) + k % size == k
      && k % size < |Window(xs, page, size)|
      && Window(xs, page, size)[k % size] == xs[k]
  {
    var page := k / size + 1;
    assert Skip(page, size) == (k / size) * size;
    assert Skip(page, size) + k % size == k;
    assert Skip(page, size) <= k < |xs|;
  }
}
