/** The page-number window that the paginated lists show under a table: the pages from two
    before to two after the current one, clipped to the pages that exist. */
module Pagination {

  function Max(a: int, b: int): int { if a < b then b else a }

  function Min(a: int, b: int): int { if a < b then a else b }

  /** lo, lo + 1, ..., hi; empty when lo > hi. */
  function Range(lo: int, hi: int): seq<int>
    decreases hi - lo
  {
    if lo > hi then [] else [lo] + Range(lo + 1, hi)
  }

  lemma {:induction false} RangeAt(lo: int, hi: int)
    ensures |Range(lo, hi)| == if lo <= hi then hi - lo + 1 else 0
    ensures forall k :: 0 <= k < |Range(lo, hi)| ==> Range(lo, hi)[k] == lo + k
    decreases hi - lo
  {
    if lo <= hi {
      RangeAt(lo + 1, hi);
    }
  }

  /** The pages shown around `current` when there are `total` pages. */
  function Window(current: int, total: int): seq<int> {
    Range(Max(1, current - 2), Min(total, current + 2))
  }

  /** The window is an ascending run of consecutive existing pages, at most five long,
      holding exactly the pages within two of the current one, and it holds the current
      page exactly when that page exists. */
  lemma WindowShape(current: int, total: int)
    ensures |Window(current, total)| <= 5
    ensures forall k :: 0 <= k < |Window(current, total)| ==>
              1 <= Window(current, total)[k] <= total
    ensures forall k :: 0 < k < |Window(current, total)| ==>
              Window(current, total)[k] == Window(current, total)[k - 1] + 1
    ensures forall p :: p in Window(current, total) <==>
              1 <= p <= total && current - 2 <= p <= current + 2
    ensures current in Window(current, total) <==> 1 <= current <= total
  {
    var lo, hi := Max(1, current - 2), Min(total, current + 2);
    RangeAt(lo, hi);
    var w := Window(current, total);
    forall p | lo <= p <= hi
      ensures p in w
    {
      assert w[p - lo] == p;
    }
  }

  /** The loop of `paginationPages`: push start, start + 1, ..., end. */
  method PageNumbers(current: int, total: int) returns (pages: seq<int>)
    ensures pages == Window(current, total)
  {
    var start := Max(1, current - 2);
    var end := Min(total, current + 2);
    pages := [];
    var i := start;
    while i <= end
      invariant start <= i <= Max(start, end + 1)
      invariant |pages| == i - start
      invariant forall k :: 0 <= k < |pages| ==> pages[k] == start + k
    {
      pages := pages + [i];
      i := i + 1;
    }
    RangeAt(start, end);
  }
}
