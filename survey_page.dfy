/**
 * The survey list page: its grid state (search, page, sort, page size,
 * filters), the request it fetches with, the rows it shows and the survey
 * a row action opens for editing.
 */
module SurveyPage {
  import opened Common
  import opened DataModels
  import opened ListPage
  import SurveyApi
  import SurveyCard
  import CountDefinedProps
  import FiltersBubbles

  const DefaultFilters := SurveyFilter(None, None)

  /** The whole page state, one field per state hook. */
  datatype PageState = PageState(
    data: seq<Survey>,
    searchTerm: string,
    currentPage: int,
    totalPages: int,
    sort: SortOrder,
    resultsPerPage: int,
    isFiltersModalOpen: bool,
    surveyToEdit: Option<Survey>,
    loading: bool,
    filters: SurveyFilter)

  const InitialState := PageState([], "", 1, 1, SortOrder("name", false), 10, false, None, false, DefaultFilters)

  /** The page number never drops below 1. */
  predicate Valid(s: PageState) {
    s.currentPage >= 1
  }

  /** The parameters `fetchData` passes to `getSurveys`. */
  function FetchParams(s: PageState): SurveyApi.GetSurveysParams {
    SurveyApi.GetSurveysParams(s.currentPage, s.resultsPerPage, Some(s.searchTerm), Some(s.filters))
  }

  /** The fetch sends the page, the page size, the typed search and the status filter, and never the sort order. */
  lemma FetchQuery(s: PageState, other: SortOrder)
    ensures var q := SurveyApi.SurveysQuery(FetchParams(s));
            q[0] == Param("page", IntToString(s.currentPage))
            && Lookup(q, "search") == (if s.searchTerm != "" then Some(s.searchTerm) else None)
            && Lookup(q, "status") == (if TruthyString(s.filters.status) then s.filters.status else None)
    ensures SurveyApi.SurveysQuery(FetchParams(s)) == SurveyApi.SurveysQuery(FetchParams(s.(sort := other)))
  {
    SurveyApi.SurveysQuerySendsNonEmpty(FetchParams(s));
  }

  /** One row of the grid. Time cells hold the raw time text; its locale rendering is not modelled. */
  datatype SurveyRow = SurveyRow(
    id: string,
    name: string,
    startPoint: string,
    endPoint: string,
    status: string,
    startPointAgent: string,
    endPointAgent: string,
    scheduledStartTime: string,
    scheduledEndTime: string)

  /** `transformedData`'s mapping of one survey. */
  function Row(item: Survey): (r: SurveyRow)
    ensures r.id == NullishOr(item.id, "") && r.name == NullishOr(item.name, "")
    ensures r.status == "-" <==> !TruthyString(item.status) || item.status == Some("-")
    ensures r.startPointAgent == SurveyCard.GetAgentName(item.startPointAgent)
    ensures r.endPointAgent == SurveyCard.GetAgentName(item.endPointAgent)
    ensures r.scheduledStartTime == TruthyOr(item.scheduledStartTime, "-")
  {
    SurveyRow(
      NullishOr(item.id, ""),
      NullishOr(item.name, ""),
      NullishOr(item.startPoint, ""),
      NullishOr(item.endPoint, ""),
      TruthyOr(item.status, "-"),
      SurveyCard.GetAgentName(item.startPointAgent),
      SurveyCard.GetAgentName(item.endPointAgent),
      TruthyOr(item.scheduledStartTime, "-"),
      TruthyOr(item.scheduledEndTime, "-"))
  }

  function Rows(data: seq<Survey>): (r: seq<SurveyRow>)
    ensures |r| == |data|
    ensures forall i :: 0 <= i < |data| ==> r[i] == Row(data[i])
  {
    seq(|data|, i requires 0 <= i < |data| => Row(data[i]))
  }

  /** An empty name is kept empty, while an empty status shows a dash. */
  lemma EmptyNameStaysEmpty(item: Survey)
    requires item.name == Some("") && item.status == Some("")
    ensures Row(item).name == "" && Row(item).status == "-"
  {
  }

  function SurveyId(s: Survey): Option<string> {
    s.id
  }

  /** The number on the filter button: 1 when a status filter is set, else 0; the filter's search never counts. */
  function AppliedFiltersCount(filters: SurveyFilter): nat {
    CountDefinedProps.CountDefinedProps(SurveyFilterRecord(filters), [["status"]])
  }

  lemma AppliedFiltersCountIsStatus(filters: SurveyFilter)
    ensures AppliedFiltersCount(filters) == (if TruthyString(filters.status) then 1 else 0)
  {
    CountDefinedProps.SingleKeyCount(SurveyFilterRecord(filters), "status");
  }

  /** The status bubble's text: shown only while a status filter is set. */
  function StatusBubbleText(filters: Record): Option<string> {
    var status := Field(filters, "status");
    if status.JsString? && status.s != "" then Some("status: " + status.s) else None
  }

  const StatusBubble := FiltersBubbles.CustomBubble("status", StatusBubbleText)

  /** The bubble shows exactly when the filter count is 1; its close action clears the status and hides it. */
  lemma StatusBubbleMatchesCount(filters: SurveyFilter)
    ensures FiltersBubbles.BubbleFor(StatusBubble, SurveyFilterRecord(filters)).Some? <==> AppliedFiltersCount(filters) == 1
    ensures FiltersBubbles.BubbleFor(StatusBubble, SurveyFilterRecord(filters.(status := None))).None?
    ensures AppliedFiltersCount(filters.(status := None)) == 0
  {
    AppliedFiltersCountIsStatus(filters);
    AppliedFiltersCountIsStatus(filters.(status := None));
  }

  class SurveyList {
    var data: seq<Survey>
    var searchTerm: string
    var currentPage: int
    var totalPages: int
    var sort: SortOrder
    var resultsPerPage: int
    var isFiltersModalOpen: bool
    var surveyToEdit: Option<Survey>
    var loading: bool
    var filters: SurveyFilter

    function State(): PageState
      reads this
    {
      PageState(data, searchTerm, currentPage, totalPages, sort, resultsPerPage,
                isFiltersModalOpen, surveyToEdit, loading, filters)
    }

    /** The first render: page 1 of 1, sorted by name ascending, ten per page, no filters. */
    constructor ()
      ensures State() == InitialState && Valid(State())
    {
      data := [];
      searchTerm := "";
      currentPage := 1;
      totalPages := 1;
      sort := SortOrder("name", false);
      resultsPerPage := 10;
      isFiltersModalOpen := false;
      surveyToEdit := None;
      loading := false;
      filters := DefaultFilters;
    }

    /** `fetchData` up to the request: shows the spinner and returns the parameters. */
    method BeginFetch() returns (params: SurveyApi.GetSurveysParams)
      modifies this
      ensures params == FetchParams(old(State()))
      ensures State() == old(State()).(loading := true)
    {
      params := SurveyApi.GetSurveysParams(currentPage, resultsPerPage, Some(searchTerm), Some(filters));
      loading := true;
    }

    /** `fetchData` after the request: takes over docs and page count, or keeps them when the call failed. */
    method FinishFetch(outcome: FetchOutcome<Survey>)
      requires Valid(State())
      modifies this
      ensures outcome.Responded? ==>
                State() == old(State()).(data := DocsOf(outcome.results), totalPages := TotalPagesOf(outcome.results), loading := false)
      ensures outcome.Failed? ==> State() == old(State()).(loading := false)
      ensures Valid(State())
    {
      if outcome.Responded? {
        data := DocsOf(outcome.results);
        totalPages := TotalPagesOf(outcome.results);
      }
      loading := false;
    }

    /** `handleSearch`: a new search starts again on page 1. */
    method HandleSearch(value: string)
      modifies this
      ensures State() == old(State()).(searchTerm := value, currentPage := 1)
      ensures Valid(State())
    {
      searchTerm := value;
      currentPage := 1;
    }

    /** `handlePageChange` */
    method HandlePageChange(page: int)
      requires Valid(State())
      modifies this
      ensures State() == old(State()).(currentPage := PageAfter(old(currentPage), page, old(totalPages)))
      ensures Valid(State())
    {
      if page >= 1 && page <= totalPages {
        currentPage := page;
      }
    }

    /** `handleResultsPerPageChange`: a new page size starts again on page 1. */
    method HandleResultsPerPageChange(value: int)
      modifies this
      ensures State() == old(State()).(resultsPerPage := value, currentPage := 1)
      ensures Valid(State())
    {
      resultsPerPage := value;
      currentPage := 1;
    }

    /** `handleSort`: only the arrow changes; the fetch does not depend on it. */
    method HandleSort(columnKey: string)
      requires Valid(State())
      modifies this
      ensures State() == old(State()).(sort := NextSort(old(sort), columnKey))
      ensures FetchParams(State()) == FetchParams(old(State()))
      ensures Valid(State())
    {
      if sort.sortBy == columnKey {
        sort := sort.(sortDescending := !sort.sortDescending);
      } else {
        sort := SortOrder(columnKey, false);
      }
    }

    /** `handleFiltersApply`: the new filters take effect and the modal closes; the page is kept. */
    method HandleFiltersApply(newFilters: SurveyFilter)
      requires Valid(State())
      modifies this
      ensures State() == old(State()).(filters := newFilters, isFiltersModalOpen := false)
      ensures Valid(State())
    {
      filters := newFilters;
      isFiltersModalOpen := false;
    }

    /** The modal's reset: back to no filters. */
    method ResetFilters()
      requires Valid(State())
      modifies this
      ensures State() == old(State()).(filters := DefaultFilters)
      ensures AppliedFiltersCount(filters) == 0
      ensures Valid(State())
    {
      filters := DefaultFilters;
      AppliedFiltersCountIsStatus(filters);
    }

    /** The status bubble's `handleClose`. */
    method CloseStatusBubble()
      requires Valid(State())
      modifies this
      ensures State() == old(State()).(filters := old(filters).(status := None))
      ensures AppliedFiltersCount(filters) == 0
      ensures Valid(State())
    {
      filters := filters.(status := None);
      AppliedFiltersCountIsStatus(filters);
    }

    method OpenFiltersModal()
      requires Valid(State())
      modifies this
      ensures State() == old(State()).(isFiltersModalOpen := true)
      ensures Valid(State())
    {
      isFiltersModalOpen := true;
    }

    method CloseFiltersModal()
      requires Valid(State())
      modifies this
      ensures State() == old(State()).(isFiltersModalOpen := false)
      ensures Valid(State())
    {
      isFiltersModalOpen := false;
    }

    /** `handleActionClick`: opens the first survey with that id; an unknown id leaves the edit target as it was. */
    method HandleActionClick(value: string)
      requires Valid(State())
      modifies this
      ensures FindById(old(data), SurveyId, value).Some? ==>
                State() == old(State()).(surveyToEdit := FindById(old(data), SurveyId, value))
      ensures FindById(old(data), SurveyId, value).None? ==> State() == old(State())
      ensures Valid(State())
    {
      var survey := FindById(data, SurveyId, value);
      if survey.Some? {
        surveyToEdit := survey;
      }
    }

    /** The edit modal's `onClose`. */
    method CloseEditModal()
      requires Valid(State())
      modifies this
      ensures State() == old(State()).(surveyToEdit := None)
      ensures Valid(State())
    {
      surveyToEdit := None;
    }
  }
}
