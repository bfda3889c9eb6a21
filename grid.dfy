/**
 * The data grid shared by the survey and user pages: the windowed page bar,
 * the go-to-page box, row selection, the empty-state message and the
 * previous/next buttons.
 */
module Grid {
  import opened Common
  import CountDefinedProps

  /** One entry of the page bar: a page number or the `'...'` gap. */
  datatype PageItem = Num(n: int) | Ellipsis

  /** Page numbers in the bar appear in strictly increasing order. */
  predicate StrictlyIncreasing(pages: seq<PageItem>) {
    forall i, j :: 0 <= i < j < |pages| && pages[i].Num? && pages[j].Num? ==> pages[i].n < pages[j].n
  }

  /** Every page number in the bar lies between 1 and `totalPages`. */
  predicate WithinRange(pages: seq<PageItem>, totalPages: int) {
    forall i :: 0 <= i < |pages| && pages[i].Num? ==> 1 <= pages[i].n <= totalPages
  }

  predicate ShowsPage(pages: seq<PageItem>, page: int) {
    exists i :: 0 <= i < |pages| && pages[i] == Num(page)
  }

  /**
   * The page bar: every page when there are at most ten, otherwise seven
   * entries that always keep the first and last page and a window around
   * the current one.
   */
  method RenderPageNumbers(currentPage: int, totalPages: int) returns (pages: seq<PageItem>)
    ensures totalPages <= 10 ==>
              |pages| == (if totalPages > 0 then totalPages else 0)
              && forall i :: 0 <= i < |pages| ==> pages[i] == Num(i + 1)
    ensures totalPages > 10 && currentPage <= 4 ==>
              pages == [Num(1), Num(2), Num(3), Num(4), Num(5), Ellipsis, Num(totalPages)]
    ensures totalPages > 10 && 4 < currentPage && currentPage > totalPages - 4 ==>
              pages == [Num(1), Ellipsis, Num(totalPages - 4), Num(totalPages - 3),
                        Num(totalPages - 2), Num(totalPages - 1), Num(totalPages)]
    ensures totalPages > 10 && 4 < currentPage <= totalPages - 4 ==>
              pages == [Num(1), Ellipsis, Num(currentPage - 1), Num(currentPage),
                        Num(currentPage + 1), Ellipsis, Num(totalPages)]
    ensures totalPages > 10 ==> |pages| == 7 && pages[0] == Num(1) && pages[6] == Num(totalPages)
    ensures WithinRange(pages, totalPages)
    ensures StrictlyIncreasing(pages)
    ensures 1 <= currentPage <= totalPages ==> ShowsPage(pages, currentPage)
  {
    pages := [];
    if totalPages <= 10 {
      var i := 1;
      while i <= totalPages
        invariant 1 <= i && (totalPages >= 1 ==> i <= totalPages + 1) && (totalPages < 1 ==> i == 1)
        invariant |pages| == i - 1
        invariant forall k :: 0 <= k < |pages| ==> pages[k] == Num(k + 1)
      {
        pages := pages + [Num(i)];
        i := i + 1;
      }
      ConsecutiveWellFormed(pages, totalPages);
      if 1 <= currentPage <= totalPages {
        assert pages[currentPage - 1] == Num(currentPage);
      }
    } else if currentPage <= 4 {
      pages := [Num(1), Num(2), Num(3), Num(4), Num(5), Ellipsis, Num(totalPages)];
      HeadWindowWellFormed(totalPages);
      if 1 <= currentPage {
        assert pages[currentPage - 1] == Num(currentPage);
      }
    } else if currentPage > totalPages - 4 {
      pages := [Num(1), Ellipsis, Num(totalPages - 4), Num(totalPages - 3),
                Num(totalPages - 2), Num(totalPages - 1), Num(totalPages)];
      TailWindowWellFormed(totalPages);
      if currentPage <= totalPages {
        assert pages[currentPage - totalPages + 6] == Num(currentPage);
      }
    } else {
      pages := [Num(1), Ellipsis, Num(currentPage - 1), Num(currentPage),
                Num(currentPage + 1), Ellipsis, Num(totalPages)];
      SlidingWindowWellFormed(currentPage, totalPages);
      assert pages[3] == Num(currentPage);
    }
  }

  lemma ConsecutiveWellFormed(pages: seq<PageItem>, totalPages: int)
    requires |pages| <= totalPages || |pages| == 0
    requires forall k :: 0 <= k < |pages| ==> pages[k] == Num(k + 1)
    ensures StrictlyIncreasing(pages) && WithinRange(pages, totalPages)
  {
  }

  lemma HeadWindowWellFormed(totalPages: int)
    requires totalPages > 10
    ensures var pages := [Num(1), Num(2), Num(3), Num(4), Num(5), Ellipsis, Num(totalPages)];
            StrictlyIncreasing(pages) && WithinRange(pages, totalPages)
  {
  }

  lemma TailWindowWellFormed(totalPages: int)
    requires totalPages > 10
    ensures var pages := [Num(1), Ellipsis, Num(totalPages - 4), Num(totalPages - 3),
                          Num(totalPages - 2), Num(totalPages - 1), Num(totalPages)];
            StrictlyIncreasing(pages) && WithinRange(pages, totalPages)
  {
  }

  lemma SlidingWindowWellFormed(currentPage: int, totalPages: int)
    requires 4 < currentPage <= totalPages - 4
    ensures var pages := [Num(1), Ellipsis, Num(currentPage - 1), Num(currentPage),
                          Num(currentPage + 1), Ellipsis, Num(totalPages)];
            StrictlyIncreasing(pages) && WithinRange(pages, totalPages)
  {
  }

  /** A page button asks for its page; the `'...'` entry is disabled. */
  function PageButtonRequest(item: PageItem): (r: Option<int>)
    ensures r.Some? <==> item.Num?
    ensures r.Some? ==> r.value == item.n
  {
    match item
    case Num(n) => Some(n)
    case Ellipsis => None
  }

  /** The outcome of pressing "go": the page asked for, if any, and the box's new text. */
  datatype GoToPageOutcome = GoToPageOutcome(requested: Option<int>, input: string)

  /** Pressing "go" asks for the typed page only when it parses and lies in range; the box is always cleared. */
  function HandleGoToPage(input: string, totalPages: int): (r: GoToPageOutcome)
    ensures r.input == ""
    ensures r.requested.Some? <==> ParseInt(input).Some? && 1 <= ParseInt(input).value <= totalPages
    ensures r.requested.Some? ==> r.requested == ParseInt(input)
  {
    var page := ParseInt(input);
    if page.Some? && 1 <= page.value && page.value <= totalPages then GoToPageOutcome(page, "")
    else GoToPageOutcome(None, "")
  }

  /** Typing the decimal text of a page in range always reaches that page; anything outside is ignored. */
  lemma GoToTypedPage(page: int, totalPages: int)
    ensures HandleGoToPage(IntToString(page), totalPages).requested
            == (if 1 <= page <= totalPages then Some(page) else None)
  {
    ParseIntOfIntToString(page);
  }

  /** The header checkbox toggles between every row id of the current page and none. */
  function HandleSelectAll(checked: bool, rowIds: seq<string>): (r: set<string>)
    ensures checked ==> forall id :: id in r <==> id in rowIds
    ensures !checked ==> r == {}
  {
    if checked then set id | id in rowIds else {}
  }

  /** A row checkbox flips that row's membership and leaves every other row alone. */
  function HandleRowSelect(selected: set<string>, id: string): (r: set<string>)
    ensures id in r <==> id !in selected
    ensures forall other :: other != id ==> (other in r <==> other in selected)
  {
    if id in selected then selected - {id} else selected + {id}
  }

  lemma RowSelectTwice(selected: set<string>, id: string)
    ensures HandleRowSelect(HandleRowSelect(selected, id), id) == selected
  {
  }

  /** The header checkbox shows checked when the selection has as many ids as the page has rows. */
  predicate HeaderChecked(selected: set<string>, rowIds: seq<string>) {
    |selected| == |rowIds| && |rowIds| > 0
  }

  predicate Distinct(ids: seq<string>) {
    forall i, j :: 0 <= i < j < |ids| ==> ids[i] != ids[j]
  }

  lemma {:induction false} DistinctIdsSetSize(ids: seq<string>)
    requires Distinct(ids)
    ensures |set id | id in ids| == |ids|
  {
    if |ids| > 0 {
      var rest := ids[1..];
      DistinctIdsSetSize(rest);
      var s := set id | id in ids;
      var t := set id | id in rest;
      assert ids[0] !in t;
      assert s == t + {ids[0]};
    }
  }

  /** Selecting all rows of a page with distinct ids checks the header checkbox; clearing unchecks it. */
  lemma SelectAllChecksHeader(rowIds: seq<string>)
    requires Distinct(rowIds) && |rowIds| > 0
    ensures HeaderChecked(HandleSelectAll(true, rowIds), rowIds)
    ensures !HeaderChecked(HandleSelectAll(false, rowIds), rowIds)
  {
    DistinctIdsSetSize(rowIds);
  }

  /** The header compares sizes only: ids kept from another page can check it with no row of this page selected. */
  lemma HeaderCheckedBySizeOnly()
    ensures HeaderChecked({"x", "y"}, ["a", "b"])
  {
    assert |{"x", "y"}| == 2;
  }

  /** A filter value is empty when it is an empty array, `''`, `null` or `undefined`. */
  predicate IsEmptyFilterValue(v: JsValue) {
    match v
    case JsArray(items) => |items| == 0
    case JsString(s) => s == ""
    case JsNull => true
    case JsUndefined => true
    case _ => false
  }

  predicate AreFiltersEmpty(filters: Record) {
    forall k :: k in filters ==> IsEmptyFilterValue(filters[k])
  }

  /** The empty-table text: "no matching records" when a search or a non-empty filter is active. */
  function EmptyStateMessage(searchTerm: string, filters: Option<Record>): (r: string)
    ensures r == "noMatchingRecordsFound" || r == "noRecordsToDisplay"
    ensures r == "noMatchingRecordsFound"
            <==> searchTerm != "" || (filters.Some? && !AreFiltersEmpty(filters.value))
  {
    if searchTerm != "" || (filters.Some? && !AreFiltersEmpty(filters.value)) then "noMatchingRecordsFound"
    else "noRecordsToDisplay"
  }

  /** When the grid calls the filters empty, the filter button shows no count, whatever the groups. */
  lemma {:induction false} EmptyFiltersCountNothing(filters: Record, groups: seq<seq<string>>)
    requires AreFiltersEmpty(filters)
    ensures CountDefinedProps.CountDefinedProps(filters, groups) == 0
  {
    forall i | 0 <= i < |groups|
      ensures !CountDefinedProps.GroupHasValue(filters, groups[i])
    {
      forall j | 0 <= j < |groups[i]|
        ensures !CountDefinedProps.HoldsValue(Field(filters, groups[i][j]))
      {
        var key := groups[i][j];
        if key in filters {
          assert IsEmptyFilterValue(filters[key]);
        }
      }
    }
    CountDefinedProps.CountZeroIff(filters, groups);
  }

  /** The converse fails: a filter holding `0` counts as nothing yet makes the grid report "no matching records". */
  lemma ZeroFilterCountsNothingButIsNotEmpty()
    ensures CountDefinedProps.CountDefinedProps(map["x" := JsNumber(0)], [["x"]]) == 0
    ensures EmptyStateMessage("", Some(map["x" := JsNumber(0)])) == "noMatchingRecordsFound"
  {
    CountDefinedProps.SingleKeyCount(map["x" := JsNumber(0)], "x");
    assert !IsEmptyFilterValue(map["x" := JsNumber(0)]["x"]);
  }

  /** The previous button asks for the page before, and is disabled on page 1. */
  function PreviousRequest(currentPage: int): (r: Option<int>)
    ensures r.None? <==> currentPage == 1
    ensures r.Some? ==> r.value == currentPage - 1
  {
    if currentPage == 1 then None else Some(currentPage - 1)
  }

  /** The next button asks for the page after, and is disabled on the last page. */
  function NextRequest(currentPage: int, totalPages: int): (r: Option<int>)
    ensures r.None? <==> currentPage == totalPages
    ensures r.Some? ==> r.value == currentPage + 1
  {
    if currentPage == totalPages then None else Some(currentPage + 1)
  }

  /** From a page in range, the previous and next buttons only ever ask for pages in range. */
  lemma PreviousNextStayInRange(currentPage: int, totalPages: int)
    requires 1 <= currentPage <= totalPages
    ensures PreviousRequest(currentPage).Some? ==> 1 <= PreviousRequest(currentPage).value <= totalPages
    ensures NextRequest(currentPage, totalPages).Some? ==> 1 <= NextRequest(currentPage, totalPages).value <= totalPages
  {
  }

  /** The filter button's caption: the label, with the applied count in parentheses when positive. */
  function FilterButtonText(caption: string, appliedFiltersCount: int): (r: string)
    ensures appliedFiltersCount <= 0 ==> r == caption
    ensures appliedFiltersCount > 0 ==> r == caption + " (" + IntToString(appliedFiltersCount) + ")"
  {
    caption + (if appliedFiltersCount > 0 then " (" + IntToString(appliedFiltersCount) + ")" else "")
  }

  /** The search bubble shows while a search term is set; closing it searches for `''`. */
  function SearchBubbleClose(searchTerm: string): (r: Option<string>)
    ensures r.Some? <==> searchTerm != ""
    ensures r.Some? ==> r.value == ""
  {
    if searchTerm != "" then Some("") else None
  }

  /** The results-per-page choices. */
  const ResultsPerPageOptions: seq<int> := [10, 25, 50, 100]

  /**
   * The page-size select hands `parseInt` of the chosen option's text on: every
   * choice reads back as itself, and is a positive size.
   */
  lemma PageSizeOptionsReadBack(i: int)
    requires 0 <= i < |ResultsPerPageOptions|
    ensures ParseInt(IntToString(ResultsPerPageOptions[i])) == Some(ResultsPerPageOptions[i])
    ensures ResultsPerPageOptions[i] > 0
  {
    ParseIntOfIntToString(ResultsPerPageOptions[i]);
  }
}
