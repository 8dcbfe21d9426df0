/** The pagination both admin tables use: five rows a page, pages numbered from 1. */
module Paging {

  const PageSize: nat := 5

  /** How `Array.prototype.slice` reads one index argument: negative counts from
      the end, and the result is clamped to `[0, n]`. */
  function SliceIndex(x: int, n: nat): (r: nat)
    ensures r <= n
    ensures 0 <= x <= n ==> r == x
  {
    if x < 0 then (if n + x < 0 then 0 else n + x)
    else if x > n then n
    else x
  }

  /** `s.slice(start, end)`. */
  function JsSlice<T>(s: seq<T>, start: int, end: int): (r: seq<T>)
    ensures |r| <= |s|
  {
    var from, to := SliceIndex(start, |s|), SliceIndex(end, |s|);
    if from < to then s[from..to] else []
  }

  /** `Math.ceil(n / 5)`. */
  function TotalPages(n: nat): (r: nat)
    ensures r * PageSize >= n
    ensures r > 0 ==> (r - 1) * PageSize < n
  {
    (n + PageSize - 1) / PageSize
  }

  /** The rows of page `page`: `rows.slice((page - 1) * 5, page * 5)`. */
  function PageOf<T>(rows: seq<T>, page: int): seq<T>
  {
    JsSlice(rows, (page - 1) * PageSize, page * PageSize)
  }

  /** Whatever the page number, a page never shows more than five rows. */
  lemma PageAtMostFive<T>(rows: seq<T>, page: int)
    ensures |PageOf(rows, page)| <= PageSize
  {
  }

  /** A page in `1..TotalPages` shows the rows `(page - 1) * 5` onward, in order, and is not empty. */
  lemma PageContents<T>(rows: seq<T>, page: int)
    requires 1 <= page <= TotalPages(|rows|)
    ensures var p := PageOf(rows, page);
      0 < |p| <= PageSize &&
      (forall k | 0 <= k < |p| :: (page - 1) * PageSize + k < |rows| && p[k] == rows[(page - 1) * PageSize + k])
      && (page < TotalPages(|rows|) ==> |p| == PageSize)
  {
  }

  /** Every row is on exactly the page `i / 5 + 1`, at position `i % 5`: the pages cover the list. */
  lemma RowOnItsPage<T>(rows: seq<T>, i: nat)
    requires i < |rows|
    ensures 1 <= i / PageSize + 1 <= TotalPages(|rows|)
    ensures var p := PageOf(rows, i / PageSize + 1);
      i % PageSize < |p| && p[i % PageSize] == rows[i]
  {
    var page := i / PageSize + 1;
    assert (page - 1) * PageSize + i % PageSize == i;
    PageContents(rows, page);
  }

  /** A page past the last one is empty. */
  lemma PageBeyondLastEmpty<T>(rows: seq<T>, page: int)
    requires page > TotalPages(|rows|)
    ensures PageOf(rows, page) == []
  {
  }
}
