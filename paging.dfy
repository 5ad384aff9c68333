/** Client-side pagination of the top-level index-logs screen: the rows of a
    page are `rows.slice(first, last)` with `last = page * perPage` and
    `first = last - perPage`, under JavaScript's clamping rules for `slice`. */
module Paging {

  function Min(a: int, b: int): int
  {
    if a < b then a else b
  }

  /** How `Array.prototype.slice` turns an argument into a position: a
      negative one counts back from the end, and the result is clamped to
      `[0, len]`. */
  function ClampIndex(k: int, len: nat): (r: nat)
    ensures r <= len
    ensures 0 <= k ==> r == Min(k, len)
    ensures k < 0 && -k <= len ==> r == len + k
    ensures k < 0 && len < -k ==> r == 0
  {
    if k < 0 then (if len + k < 0 then 0 else len + k)
    else if k < len then k else len
  }

  /** `s.slice(start, end)`. */
  function JsSlice<T>(s: seq<T>, start: int, end: int): (r: seq<T>)
    ensures |r| <= |s|
    ensures forall x :: x in r ==> x in s
    ensures 0 <= start <= end ==> |r| <= end - start
  {
    var from, to := ClampIndex(start, |s|), ClampIndex(end, |s|);
    if from < to then s[from..to] else []
  }

  /** The rows shown on page `page` with `perPage` rows per page. */
  function PageOf<T>(s: seq<T>, page: int, perPage: int): (r: seq<T>)
    ensures forall x :: x in r ==> x in s
    ensures 1 <= page && 0 <= perPage ==> |r| <= perPage
  {
    var last := page * perPage;
    assert 1 <= page && 0 <= perPage ==> 0 <= (page - 1) * perPage == last - perPage;
    JsSlice(s, last - perPage, last)
  }

  /** For a page number from 1 on, the page is the window
      `[(page-1)*perPage, page*perPage)` cut to the list: it holds at most
      `perPage` rows, and none once it starts past the end. */
  lemma PageWindow<T>(s: seq<T>, page: int, perPage: int)
    requires 1 <= page && 0 <= perPage
    ensures (page - 1) * perPage <= page * perPage
    ensures PageOf(s, page, perPage) == s[Min((page - 1) * perPage, |s|)..Min(page * perPage, |s|)]
    ensures |PageOf(s, page, perPage)| <= perPage
    ensures |s| <= (page - 1) * perPage ==> PageOf(s, page, perPage) == []
  {
    var last := page * perPage;
    assert last - perPage == (page - 1) * perPage;
    assert 0 <= (page - 1) * perPage;
  }

  /** The first page is the first `perPage` rows, or all rows when fewer. */
  lemma FirstPage<T>(s: seq<T>, perPage: int)
    requires 0 <= perPage
    ensures PageOf(s, 1, perPage) == s[..Min(perPage, |s|)]
  {
    PageWindow(s, 1, perPage);
  }

  /** 25 rows, 10 per page: page 1 is rows 0 to 9 and page 3 is the partial
      last page, rows 20 to 24. */
  lemma PageExamples<T>(s: seq<T>)
    requires |s| == 25
    ensures PageOf(s, 1, 10) == s[0..10]
    ensures PageOf(s, 3, 10) == s[20..25]
  {
    PageWindow(s, 1, 10);
    PageWindow(s, 3, 10);
  }
}
