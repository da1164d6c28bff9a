/**
 * The Pagination component (components/pagination.tsx): from the pagination
 * info of a list response to the row it renders, left to right: an optional
 * "1" button, an optional "...", an optional previous-page button, the current
 * page (a button without click handler), an optional next-page button, an
 * optional "..." and an optional last-page button.
 */
module Pagination {
  import opened Wrappers

  datatype PaginationInfo = PaginationInfo(currentPage: int, totalPages: int, totalCount: int, isLastPage: bool)

  /** A rendered element: a page button (with the page its click passes to onChangePage) or "...". */
  datatype Item = PageButton(page: int, target: Option<int>) | Ellipsis

  /** The row, given whether the next-page button is shown. */
  function Render(info: PaginationInfo, showNext: bool): seq<Item> {
    var cur, total := info.currentPage, info.totalPages;
    (if cur > 2 then [PageButton(1, Some(1))] else [])
    + (if cur > 3 then [Ellipsis] else [])
    + (if cur > 1 then [PageButton(cur - 1, Some(cur - 1))] else [])
    + [PageButton(cur, None)]
    + (if showNext then [PageButton(cur + 1, Some(cur + 1))] else [])
    + (if cur < total - 2 then [Ellipsis] else [])
    + (if cur < total - 1 then [PageButton(total, Some(total))] else [])
  }

  /** The row as the component renders it. */
  function Layout(info: PaginationInfo): seq<Item> {
    Render(info, !info.isLastPage && info.currentPage < info.totalPages - 1)
  }

  /** Some button of the row sends `t` to onChangePage. */
  predicate Targets(items: seq<Item>, t: int) {
    PageButton(t, Some(t)) in items
  }

  /** Pagination info as a list response describes it. */
  predicate Consistent(info: PaginationInfo) {
    1 <= info.currentPage <= info.totalPages && (info.isLastPage <==> info.currentPage == info.totalPages)
  }

  /** Where the current-page button sits in the row. */
  function CurrentIndex(info: PaginationInfo): nat {
    var cur := info.currentPage;
    (if cur > 2 then 1 else 0) + (if cur > 3 then 1 else 0) + (if cur > 1 then 1 else 0)
  }

  // ---------------------------------------------------------------------------

  /**
   * The current page is always rendered, as the only button without a click
   * handler; every other button is labelled with the page it leads to.
   */
  lemma LayoutShowsCurrent(info: PaginationInfo)
    ensures PageButton(info.currentPage, None) in Layout(info)
    ensures forall it <- Layout(info) | it.PageButton? ::
      if it.target.None? then it.page == info.currentPage else it.target == Some(it.page)
  {
  }

  /** Page numbers strictly increase from left to right. */
  lemma LayoutIncreasing(info: PaginationInfo, i: nat, j: nat)
    requires i < j < |Layout(info)|
    requires Layout(info)[i].PageButton? && Layout(info)[j].PageButton?
    ensures Layout(info)[i].page < Layout(info)[j].page
  {
  }

  /** While the current page is within the total, every click stays in [1, totalPages]. */
  lemma LayoutTargetsInRange(info: PaginationInfo, t: int)
    requires 1 <= info.currentPage <= info.totalPages
    requires Targets(Layout(info), t)
    ensures 1 <= t <= info.totalPages
  {
  }

  /**
   * The leading "..." shows exactly when currentPage > 3 and the trailing one
   * exactly when currentPage < totalPages - 2.
   */
  lemma LayoutEllipses(info: PaginationInfo)
    ensures CurrentIndex(info) < |Layout(info)|
    ensures Layout(info)[CurrentIndex(info)] == PageButton(info.currentPage, None)
    ensures Ellipsis in Layout(info)[..CurrentIndex(info)] <==> info.currentPage > 3
    ensures Ellipsis in Layout(info)[CurrentIndex(info) + 1..] <==> info.currentPage < info.totalPages - 2
  {
    var L, k := Layout(info), CurrentIndex(info);
    var cur, total := info.currentPage, info.totalPages;
    assert L[..k] == (if cur > 2 then [PageButton(1, Some(1))] else [])
      + (if cur > 3 then [Ellipsis] else [])
      + (if cur > 1 then [PageButton(cur - 1, Some(cur - 1))] else []);
    assert L[k + 1..] == (if !info.isLastPage && cur < total - 1 then [PageButton(cur + 1, Some(cur + 1))] else [])
      + (if cur < total - 2 then [Ellipsis] else [])
      + (if cur < total - 1 then [PageButton(total, Some(total))] else []);
  }

  /** An ellipsis always stands between two buttons whose pages skip at least one page. */
  lemma EllipsisMarksGap(info: PaginationInfo, i: nat)
    requires i < |Layout(info)| && Layout(info)[i] == Ellipsis
    ensures 0 < i < |Layout(info)| - 1
    ensures Layout(info)[i - 1].PageButton? && Layout(info)[i + 1].PageButton?
    ensures Layout(info)[i + 1].page - Layout(info)[i - 1].page >= 2
  {
  }

  /** For consistent info, neighbouring buttons without "..." between them are consecutive pages. */
  lemma NoHiddenGaps(info: PaginationInfo, i: nat)
    requires Consistent(info)
    requires i + 1 < |Layout(info)|
    requires Layout(info)[i].PageButton? && Layout(info)[i + 1].PageButton?
    ensures Layout(info)[i + 1].page == Layout(info)[i].page + 1
  {
  }

  /**
   * Which pages can be reached with one click, for a current page within the
   * total: the first and the previous page whenever there is one, the next page
   * iff the response is not the last page and currentPage < totalPages - 1, the
   * last page iff currentPage < totalPages - 1.
   */
  lemma LayoutReachable(info: PaginationInfo)
    requires 1 <= info.currentPage <= info.totalPages
    ensures Targets(Layout(info), 1) <==> info.currentPage > 1
    ensures Targets(Layout(info), info.currentPage - 1) <==> info.currentPage > 1
    ensures Targets(Layout(info), info.currentPage + 1)
      <==> !info.isLastPage && info.currentPage < info.totalPages - 1
    ensures Targets(Layout(info), info.totalPages) <==> info.currentPage < info.totalPages - 1
  {
  }

  /**
   * On the second-to-last page nothing in the row shows or leads to the last
   * page: neither the next-page button nor the last-page button is rendered.
   */
  lemma PenultimateHidesLast(info: PaginationInfo)
    requires info.currentPage == info.totalPages - 1
    ensures forall it <- Layout(info) | it.PageButton? :: it.page != info.totalPages
  {
  }

  /** The concrete case: page 9 of 10 renders 1 … 8 9, with no way to page 10. */
  lemma PenultimateExample()
    ensures Layout(PaginationInfo(9, 10, 100, false))
      == [PageButton(1, Some(1)), Ellipsis, PageButton(8, Some(8)), PageButton(9, None)]
  {
  }

  // ---------------------------------------------------------------------------
  // The row with the next-page button shown up to the last page

  function IntendedLayout(info: PaginationInfo): seq<Item> {
    Render(info, !info.isLastPage && info.currentPage < info.totalPages)
  }

  /**
   * With the next-page button shown whenever a next page exists, every page
   * but the current one is one click away from a neighbour: the next and the
   * last page are reachable iff the current page is not the last.
   */
  lemma IntendedReachable(info: PaginationInfo)
    requires Consistent(info)
    ensures Targets(IntendedLayout(info), info.currentPage + 1) <==> info.currentPage < info.totalPages
    ensures Targets(IntendedLayout(info), info.totalPages) <==> info.currentPage < info.totalPages
    ensures Targets(IntendedLayout(info), 1) <==> info.currentPage > 1
    ensures forall t :: Targets(IntendedLayout(info), t) ==> 1 <= t <= info.totalPages
  {
  }

  /** The corrected row keeps the ordering of the original. */
  lemma IntendedIncreasing(info: PaginationInfo, i: nat, j: nat)
    requires i < j < |IntendedLayout(info)|
    requires IntendedLayout(info)[i].PageButton? && IntendedLayout(info)[j].PageButton?
    ensures IntendedLayout(info)[i].page < IntendedLayout(info)[j].page
  {
  }
}
