/**
 * The user list page: the same grid state as the survey list, plus the CSV
 * export button, which refuses a second export while one is running.
 */
module UserPage {
  import opened Common
  import opened DataModels
  import opened ListPage
  import UserApi
  import DownloadFile
  import CountDefinedProps
  import FiltersBubbles

  const DefaultFilters := UserFilter(None, None, None)

  /** The whole page state, one field per state hook. */
  datatype PageState = PageState(
    data: seq<ListedUser>,
    searchTerm: string,
    currentPage: int,
    totalPages: int,
    sort: SortOrder,
    resultsPerPage: int,
    isFiltersModalOpen: bool,
    isDownloading: bool,
    userToEdit: Option<ListedUser>,
    loading: bool,
    filters: UserFilter)

  const InitialState := PageState([], "", 1, 1, SortOrder("full_name", false), 10, false, false, None, false, DefaultFilters)

  predicate Valid(s: PageState) {
    s.currentPage >= 1
  }

  /** The parameters `fetchData` passes to `getUsers`. */
  function FetchParams(s: PageState): UserApi.GetUsersParams {
    UserApi.GetUsersParams(Some(s.currentPage), Some(s.resultsPerPage), Some(s.searchTerm), Some(s.filters))
  }

  /** The page is always sent, since it is never 0; the search only when typed; the filters and the sort never. */
  lemma FetchQuery(s: PageState, f: UserFilter, other: SortOrder)
    requires Valid(s)
    ensures var q := UserApi.UsersQuery(FetchParams(s));
            Lookup(q, "page") == Some(IntToString(s.currentPage))
            && Lookup(q, "limit") == (if s.resultsPerPage != 0 then Some(IntToString(s.resultsPerPage)) else None)
            && Lookup(q, "search") == (if s.searchTerm != "" then Some(s.searchTerm) else None)
    ensures UserApi.UsersQuery(FetchParams(s)) == UserApi.UsersQuery(FetchParams(s.(filters := f, sort := other)))
  {
    UserApi.UsersQuerySendsTruthy(FetchParams(s));
  }

  /** One row of the grid. */
  datatype UserRow = UserRow(id: string, email: string, fullName: string, phone: string, role: string)

  /** The role cell: a role object's non-empty name, a plain role text, else `-`. */
  function RoleCell(role: Option<RoleValue>): (r: string)
    ensures role.Some? && role.value.RoleObject? && TruthyString(role.value.name) ==> r == role.value.name.value
    ensures role.Some? && role.value.RoleText? ==> r == role.value.text
    ensures role.None? || (role.value.RoleObject? && !TruthyString(role.value.name)) ==> r == "-"
  {
    match role
    case Some(RoleObject(name)) => TruthyOr(name, "-")
    case Some(RoleText(text)) => text
    case None => "-"
  }

  /** `transformedData`'s mapping of one user: a missing phone shows `-`, missing texts show empty. */
  function Row(item: ListedUser): (r: UserRow)
    ensures r.id == NullishOr(item.id, "") && r.email == NullishOr(item.email, "")
    ensures r.fullName == NullishOr(item.fullName, "")
    ensures r.phone == NullishOr(item.phone, "-")
    ensures r.role == RoleCell(item.role)
  {
    UserRow(NullishOr(item.id, ""), NullishOr(item.email, ""), NullishOr(item.fullName, ""),
            NullishOr(item.phone, "-"), RoleCell(item.role))
  }

  function Rows(data: seq<ListedUser>): (r: seq<UserRow>)
    ensures |r| == |data|
    ensures forall i :: 0 <= i < |data| ==> r[i] == Row(data[i])
  {
    seq(|data|, i requires 0 <= i < |data| => Row(data[i]))
  }

  /** A phone that is present but empty stays empty; only a missing one shows a dash. */
  lemma EmptyPhoneStaysEmpty(item: ListedUser)
    requires item.phone == Some("")
    ensures Row(item).phone == ""
    ensures Row(item.(phone := None)).phone == "-"
  {
  }

  function UserId(u: ListedUser): Option<string> {
    u.id
  }

  /** The number on the filter button counts the role filter only. */
  function AppliedFiltersCount(filters: UserFilter): nat {
    CountDefinedProps.CountDefinedProps(UserFilterRecord(filters), [["role"]])
  }

  /** 1 exactly when a role is chosen: a chosen counting post or a filter search is not counted. */
  lemma AppliedFiltersCountIsRole(filters: UserFilter)
    ensures AppliedFiltersCount(filters) == (if TruthyString(filters.role) then 1 else 0)
    ensures AppliedFiltersCount(filters) == AppliedFiltersCount(filters.(countingPost := None, search := None))
  {
    CountDefinedProps.SingleKeyCount(UserFilterRecord(filters), "role");
    CountDefinedProps.SingleKeyCount(UserFilterRecord(filters.(countingPost := None, search := None)), "role");
  }

  /** The role bubble's text: shown only while a role filter is set. */
  function RoleBubbleText(filters: Record): Option<string> {
    var role := Field(filters, "role");
    if role.JsString? && role.s != "" then Some("role: " + role.s) else None
  }

  const RoleBubble := FiltersBubbles.CustomBubble("role", RoleBubbleText)

  /** The bubble shows exactly when the filter count is 1; closing it clears the role and hides it. */
  lemma RoleBubbleMatchesCount(filters: UserFilter)
    ensures FiltersBubbles.BubbleFor(RoleBubble, UserFilterRecord(filters)).Some? <==> AppliedFiltersCount(filters) == 1
    ensures FiltersBubbles.BubbleFor(RoleBubble, UserFilterRecord(filters.(role := None))).None?
    ensures AppliedFiltersCount(filters.(role := None)) == 0
  {
    AppliedFiltersCountIsRole(filters);
    AppliedFiltersCountIsRole(filters.(role := None));
  }

  class UserList {
    var data: seq<ListedUser>
    var searchTerm: string
    var currentPage: int
    var totalPages: int
    var sort: SortOrder
    var resultsPerPage: int
    var isFiltersModalOpen: bool
    var isDownloading: bool
    var userToEdit: Option<ListedUser>
    var loading: bool
    var filters: UserFilter

    function State(): PageState
      reads this
    {
      PageState(data, searchTerm, currentPage, totalPages, sort, resultsPerPage,
                isFiltersModalOpen, isDownloading, userToEdit, loading, filters)
    }

    /** The first render: page 1 of 1, sorted by full name ascending, ten per page, no filters, no export running. */
    constructor ()
      ensures State() == InitialState && Valid(State())
    {
      data := [];
      searchTerm := "";
      currentPage := 1;
      totalPages := 1;
      sort := SortOrder("full_name", false);
      resultsPerPage := 10;
      isFiltersModalOpen := false;
      isDownloading := false;
      userToEdit := None;
      loading := false;
      filters := DefaultFilters;
    }

    method BeginFetch() returns (params: UserApi.GetUsersParams)
      modifies this
      ensures params == FetchParams(old(State()))
      ensures State() == old(State()).(loading := true)
    {
      params := UserApi.GetUsersParams(Some(currentPage), Some(resultsPerPage), Some(searchTerm), Some(filters));
      loading := true;
    }

    method FinishFetch(outcome: FetchOutcome<ListedUser>)
      requires Valid(State())
      modifies this
      ensures outcome.Responded? ==>
                State() == old(State()).(data := DocsOf(outcome.results), totalPages := TotalPagesOf(outcome.results), loading := false)
      ensures outcome.Failed? ==> State() == old(State()).(loading := false)
      ensures Valid(State())
    {
      if outcome.Responded? {
        data := DocsOf(outcome.results);
        totalPages := TotalPagesOf(outcome.results);
      }
      loading := false;
    }

    /**
     * `handleExportCsv`: nothing while an export is running; otherwise marks
     * one as running and asks for the export of the current search.
     */
    method HandleExportCsv() returns (request: Option<DownloadFile.DownloadArgs>)
      requires Valid(State())
      modifies this
      ensures old(isDownloading) ==> request.None? && State() == old(State())
      ensures !old(isDownloading) ==> request == Some(UserApi.ExportArgs(Some(old(searchTerm))))
                                       && State() == old(State()).(isDownloading := true)
      ensures Valid(State())
    {
      if isDownloading {
        return None;
      }
      isDownloading := true;
      var args := UserApi.ExportUsersCsv(Some(searchTerm), Some(filters));
      request := Some(args);
    }

    /** The export's `finally`: the button is enabled again, however the export ended. */
    method ExportSettled()
      requires Valid(State())
      modifies this
      ensures State() == old(State()).(isDownloading := false)
      ensures Valid(State())
    {
      isDownloading := false;
    }

    method HandleSearch(value: string)
      modifies this
      ensures State() == old(State()).(searchTerm := value, currentPage := 1)
      ensures Valid(State())
    {
      searchTerm := value;
      currentPage := 1;
    }

    method HandlePageChange(page: int)
      requires Valid(State())
      modifies this
      ensures State() == old(State()).(currentPage := PageAfter(old(currentPage), page, old(totalPages)))
      ensures Valid(State())
    {
      if page >= 1 && page <= totalPages {
        currentPage := page;
      }
    }

    method HandleResultsPerPageChange(value: int)
      modifies this
      ensures State() == old(State()).(resultsPerPage := value, currentPage := 1)
      ensures Valid(State())
    {
      resultsPerPage := value;
      currentPage := 1;
    }

    method HandleSort(columnKey: string)
      requires Valid(State())
      modifies this
      ensures State() == old(State()).(sort := NextSort(old(sort), columnKey))
      ensures FetchParams(State()) == FetchParams(old(State()))
      ensures Valid(State())
    {
      if sort.sortBy == columnKey {
        sort := sort.(sortDescending := !sort.sortDescending);
      } else {
        sort := SortOrder(columnKey, false);
      }
    }

    method HandleFiltersApply(newFilters: UserFilter)
      requires Valid(State())
      modifies this
      ensures State() == old(State()).(filters := newFilters, isFiltersModalOpen := false)
      ensures Valid(State())
    {
      filters := newFilters;
      isFiltersModalOpen := false;
    }

    method ResetFilters()
      requires Valid(State())
      modifies this
      ensures State() == old(State()).(filters := DefaultFilters)
      ensures AppliedFiltersCount(filters) == 0
      ensures Valid(State())
    {
      filters := DefaultFilters;
      AppliedFiltersCountIsRole(filters);
    }

    method CloseRoleBubble()
      requires Valid(State())
      modifies this
      ensures State() == old(State()).(filters := old(filters).(role := None))
      ensures AppliedFiltersCount(filters) == 0
      ensures Valid(State())
    {
      filters := filters.(role := None);
      AppliedFiltersCountIsRole(filters);
    }

    method OpenFiltersModal()
      requires Valid(State())
      modifies this
      ensures State() == old(State()).(isFiltersModalOpen := true)
      ensures Valid(State())
    {
      isFiltersModalOpen := true;
    }

    method CloseFiltersModal()
      requires Valid(State())
      modifies this
      ensures State() == old(State()).(isFiltersModalOpen := false)
      ensures Valid(State())
    {
      isFiltersModalOpen := false;
    }

    method HandleActionClick(value: string)
      requires Valid(State())
      modifies this
      ensures FindById(old(data), UserId, value).Some? ==>
                State() == old(State()).(userToEdit := FindById(old(data), UserId, value))
      ensures FindById(old(data), UserId, value).None? ==> State() == old(State())
      ensures Valid(State())
    {
      var user := FindById(data, UserId, value);
      if user.Some? {
        userToEdit := user;
      }
    }

    method CloseEditModal()
      requires Valid(State())
      modifies this
      ensures State() == old(State()).(userToEdit := None)
      ensures Valid(State())
    {
      userToEdit := None;
    }
  }
}
