/** The eight-rows-per-page pagination shared by the admin users and
    products tables: the page slice, `totalPages`, what the card renders for
    a page, and the `currentPage` state behind Previous, Next and the page
    links. */
module Pagination {
  import opened Wrappers

  const PageSize: nat := 8

  /** A `slice` index: negative counts from the end, then clamped to [0, n]. */
  function ClampIndex(i: int, n: nat): (k: nat)
    ensures k <= n
    ensures 0 <= i <= n ==> k == i
  {
    if i < 0 then (if n + i < 0 then 0 else n + i) else if i > n then n else i
  }

  /** `Array.prototype.slice(start, end)`. */
  function JsSlice<T>(s: seq<T>, start: int, end: int): (r: seq<T>)
  {
    var a := ClampIndex(start, |s|);
    var b := ClampIndex(end, |s|);
    if a < b then s[a..b] else []
  }

  /** `filtered.slice((page - 1) * 8, page * 8)`. */
  function PageSlice<T>(s: seq<T>, page: int): seq<T>
  {
    JsSlice(s, (page - 1) * PageSize, page * PageSize)
  }

  function Min(a: int, b: int): int
  {
    if a < b then a else b
  }

  /** Page `page` (counted from 1) holds the entries with index in
      [(page - 1) * 8, min(page * 8, n)): at most eight of them, and none when
      the page starts past the end. */
  lemma PageRange<T>(s: seq<T>, page: int)
    requires page >= 1
    ensures (page - 1) * PageSize >= |s| ==> PageSlice(s, page) == []
    ensures (page - 1) * PageSize < |s| ==>
              PageSlice(s, page) == s[(page - 1) * PageSize..Min(page * PageSize, |s|)]
    ensures |PageSlice(s, page)| <= PageSize
  {
  }

  /** `Math.ceil(n / 8)`: the least number of pages that holds n entries. */
  function TotalPages(n: nat): (t: nat)
    ensures n <= t * PageSize
    ensures t == 0 || (t - 1) * PageSize < n
  {
    (n + PageSize - 1) / PageSize
  }

  /** Every entry lies on exactly one page: page `i / 8 + 1`, between 1 and
      `totalPages`, at position `i % 8`; no other page's index range holds it. */
  lemma EachIndexOnOnePage<T>(s: seq<T>, i: nat)
    requires i < |s|
    ensures 1 <= i / PageSize + 1 <= TotalPages(|s|)
    ensures PageSlice(s, i / PageSize + 1)[i % PageSize] == s[i]
    ensures forall q: int :: (q - 1) * PageSize <= i < q * PageSize ==> q == i / PageSize + 1
  {
    var p := i / PageSize + 1;
    PageRange(s, p);
  }

  /** Pages 1 to k, one after another. */
  function Paged<T>(s: seq<T>, k: nat): seq<T>
  {
    if k == 0 then [] else Paged(s, k - 1) + PageSlice(s, k)
  }

  /** The first k pages are the first min(8k, n) entries. */
  lemma {:induction false} PagedPrefix<T>(s: seq<T>, k: nat)
    ensures Paged(s, k) == s[..Min(k * PageSize, |s|)]
  {
    if k > 0 {
      PagedPrefix(s, k - 1);
      PageRange(s, k);
      if (k - 1) * PageSize < |s| {
        assert s[..Min(k * PageSize, |s|)]
            == s[..(k - 1) * PageSize] + s[(k - 1) * PageSize..Min(k * PageSize, |s|)];
      }
    }
  }

  /** The pages 1 to `totalPages` partition the list: laid end to end they are
      the list itself. */
  lemma PagesPartition<T>(s: seq<T>)
    ensures Paged(s, TotalPages(|s|)) == s
  {
    PagedPrefix(s, TotalPages(|s|));
  }

  /** A page past `totalPages` is empty. */
  lemma PageBeyondTotalIsEmpty<T>(s: seq<T>, page: int)
    requires page > TotalPages(|s|)
    ensures PageSlice(s, page) == []
  {
    PageRange(s, page);
  }

  /** The pagination bar: the Previous link, the numbered links and the Next
      link. */
  datatype NavBar = NavBar(previous: bool, links: seq<int>, next: bool)

  /** What the card shows: the "no ... found" message, or the rows of the page
      with the pagination bar when there is more than one page. */
  datatype PageView<T> = NoMatches | Table(rows: seq<T>, nav: Option<NavBar>)

  /** `Array.from({ length: totalPages }, (_, i) => i + 1)`. */
  function PageLinks(total: nat): (links: seq<int>)
    ensures |links| == total
    ensures forall i :: 0 <= i < total ==> links[i] == i + 1
  {
    seq(total, i => i + 1)
  }

  /** The card as rendered for `currentPage == page`: the message when the page
      slice is empty, otherwise the rows, and the bar only when
      `totalPages > 1`, with Previous only after page 1 and Next only before
      the last page. */
  function Render<T>(filtered: seq<T>, page: int): (v: PageView<T>)
    ensures v == NoMatches <==> PageSlice(filtered, page) == []
    ensures v.Table? ==> v.rows == PageSlice(filtered, page)
    ensures v.Table? ==> (v.nav.Some? <==> TotalPages(|filtered|) > 1)
    ensures v.Table? && v.nav.Some? ==>
              v.nav.value.previous == (page > 1) && v.nav.value.next == (page < TotalPages(|filtered|))
  {
    var rows := PageSlice(filtered, page);
    var total := TotalPages(|filtered|);
    if rows == [] then NoMatches
    else Table(rows, if total > 1 then Some(NavBar(page > 1, PageLinks(total), page < total)) else None)
  }

  /** On a page that exists, the message appears exactly when nothing matches. */
  lemma RenderInRange<T>(filtered: seq<T>, page: int)
    requires 1 <= page <= TotalPages(|filtered|)
    ensures Render(filtered, page).Table?
  {
    PageRange(filtered, page);
  }

  /** As written, `currentPage` survives a change of the search query. When the
      narrower result has fewer pages than the current one, the card shows the
      "no ... found" message although entries match, and hides the pagination
      bar with it, so no link leads back. */
  lemma StalePageHidesMatches<T>(filtered: seq<T>, page: int)
    requires filtered != []
    requires page > TotalPages(|filtered|)
    ensures Render(filtered, page) == NoMatches
  {
    PageBeyondTotalIsEmpty(filtered, page);
  }

  /** A concrete case: nine rows put the user on page 2; a query that matches
      a single row then renders the "no ... found" message. */
  lemma StalePageExample()
    ensures TotalPages(9) == 2
    ensures Render([7], 2) == NoMatches
  {
    StalePageHidesMatches([7], 2);
  }

  /** The page the table evidently means to show: the current page pulled back
      into [1, totalPages]. */
  function ClampedPage(page: int, total: nat): (p: int)
    ensures 1 <= p
    ensures total >= 1 ==> p <= total
    ensures 1 <= page <= total ==> p == page
  {
    if page > total then (if total == 0 then 1 else total) else if page < 1 then 1 else page
  }

  /** With the clamped page the message appears exactly when nothing matches,
      whatever page the state holds. */
  lemma ClampedRenderShowsMatches<T>(filtered: seq<T>, page: int)
    ensures Render(filtered, ClampedPage(page, TotalPages(|filtered|))) == NoMatches <==> filtered == []
  {
    var total := TotalPages(|filtered|);
    var p := ClampedPage(page, total);
    PageRange(filtered, p);
  }

  /** The `currentPage` state and its three handlers. Each handler is reachable
      only through its control, so it carries that control's visibility
      condition. */
  class PageCursor {
    var currentPage: int

    predicate Valid()
      reads this
    {
      currentPage >= 1
    }

    constructor ()
      ensures currentPage == 1 && Valid()
    {
      currentPage := 1;
    }

    /** The Previous link, shown only when `currentPage > 1`. */
    method Previous()
      requires Valid() && currentPage > 1
      modifies this
      ensures currentPage == old(currentPage) - 1 && Valid()
    {
      currentPage := currentPage - 1;
    }

    /** The Next link, shown only when `currentPage < totalPages`. */
    method Next(total: nat)
      requires Valid() && currentPage < total
      modifies this
      ensures currentPage == old(currentPage) + 1 && Valid()
      ensures currentPage <= total
    {
      currentPage := currentPage + 1;
    }

    /** A numbered link, one per page from 1 to `totalPages`. */
    method GoTo(page: int, total: nat)
      requires 1 <= page <= total
      modifies this
      ensures currentPage == page && Valid()
    {
      currentPage := page;
    }
  }
}
