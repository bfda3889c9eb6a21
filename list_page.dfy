/**
 * What the survey list page and the user list page share: the sort order a
 * column click produces, which page a page request leads to, how a list
 * response is taken over and how a row action finds its record.
 */
module ListPage {
  import opened Common

  /** The grid's sort arrow: a column and a direction. */
  datatype SortOrder = SortOrder(sortBy: string, sortDescending: bool)

  /** `handleSort`: clicking the sorted column flips the direction; another column becomes the sorted one, ascending. */
  function NextSort(s: SortOrder, columnKey: string): (r: SortOrder)
    ensures r.sortBy == columnKey
    ensures r.sortDescending <==> columnKey == s.sortBy && !s.sortDescending
  {
    if s.sortBy == columnKey then s.(sortDescending := !s.sortDescending)
    else SortOrder(columnKey, false)
  }

  /** Two clicks on the same column: back where it was if it was the sorted one, otherwise descending on it. */
  lemma SortTwice(s: SortOrder, columnKey: string)
    ensures NextSort(NextSort(s, columnKey), columnKey)
            == if columnKey == s.sortBy then s else SortOrder(columnKey, true)
  {
  }

  /** `handlePageChange`: a page outside `1..totalPages` is ignored. */
  function PageAfter(currentPage: int, page: int, totalPages: int): (r: int)
    ensures 1 <= page <= totalPages ==> r == page
    ensures !(1 <= page <= totalPages) ==> r == currentPage
  {
    if page >= 1 && page <= totalPages then page else currentPage
  }

  /** A page change keeps the page at 1 or above, and never moves it past the last page. */
  lemma PageAfterBounds(currentPage: int, page: int, totalPages: int)
    requires currentPage >= 1
    ensures PageAfter(currentPage, page, totalPages) >= 1
    ensures PageAfter(currentPage, page, totalPages) > totalPages ==> PageAfter(currentPage, page, totalPages) == currentPage
  {
  }

  /** After a response with no pages every page request is ignored. */
  lemma NoPagesFreezesPage(currentPage: int, page: int, totalPages: int)
    requires totalPages < 1
    ensures PageAfter(currentPage, page, totalPages) == currentPage
  {
  }

  /** The `results` part of a list response; either part may be missing. */
  datatype ListResults<T> = ListResults(docs: Option<seq<T>>, totalPages: Option<int>)

  /** How a fetch ended: a response, possibly without `results`, or a thrown error. */
  datatype FetchOutcome<T> = Responded(results: Option<ListResults<T>>) | Failed

  /** `response.results?.docs ?? []` */
  function DocsOf<T>(results: Option<ListResults<T>>): (r: seq<T>)
    ensures results.Some? && results.value.docs.Some? ==> r == results.value.docs.value
    ensures results.None? || results.value.docs.None? ==> r == []
  {
    if results.Some? && results.value.docs.Some? then results.value.docs.value else []
  }

  /** `response.results?.totalPages ?? 1`: a `0` sent by the server is kept. */
  function TotalPagesOf<T>(results: Option<ListResults<T>>): (r: int)
    ensures results.Some? && results.value.totalPages.Some? ==> r == results.value.totalPages.value
    ensures results.None? || results.value.totalPages.None? ==> r == 1
  {
    if results.Some? && results.value.totalPages.Some? then results.value.totalPages.value else 1
  }

  /** `data.find(item => item.id === value)`: the first record whose id is the value. */
  function FindById<T>(data: seq<T>, idOf: T -> Option<string>, value: string): (r: Option<T>)
    ensures r.Some? <==> exists i :: 0 <= i < |data| && idOf(data[i]) == Some(value)
    ensures r.Some? ==> exists i :: 0 <= i < |data| && data[i] == r.value && idOf(data[i]) == Some(value)
                                    && forall j :: 0 <= j < i ==> idOf(data[j]) != Some(value)
  {
    if |data| == 0 then None
    else if idOf(data[0]) == Some(value) then Some(data[0])
    else
      var r := FindById(data[1..], idOf, value);
      assert forall i :: 1 <= i < |data| ==> data[i] == data[1..][i - 1];
      if r.Some? then
        ghost var k :| 0 <= k < |data[1..]| && data[1..][k] == r.value && idOf(data[1..][k]) == Some(value)
                       && forall j :: 0 <= j < k ==> idOf(data[1..][j]) != Some(value);
        assert data[k + 1] == r.value;
        assert forall j :: 0 <= j < k + 1 ==> idOf(data[j]) != Some(value) by {
          forall j | 0 <= j < k + 1
            ensures idOf(data[j]) != Some(value)
          {
            if j > 0 {
              assert data[j] == data[1..][j - 1];
            }
          }
        }
        r
      else
        r
  }

  /** Two records with the same id: the first one is picked, whatever follows it. */
  lemma {:induction false} FindFirstWins<T>(front: seq<T>, item: T, back: seq<T>, idOf: T -> Option<string>, value: string)
    requires forall j :: 0 <= j < |front| ==> idOf(front[j]) != Some(value)
    requires idOf(item) == Some(value)
    ensures FindById(front + [item] + back, idOf, value) == Some(item)
    decreases |front|
  {
    if |front| == 0 {
      assert (front + [item] + back)[0] == item;
    } else {
      var all := front + [item] + back;
      assert all[0] == front[0];
      assert all[1..] == front[1..] + [item] + back;
      FindFirstWins(front[1..], item, back, idOf, value);
    }
  }
}
