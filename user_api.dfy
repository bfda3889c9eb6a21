/**
 * The user endpoints: the list query, the CSV export, and the path, verb
 * and body of each user call.
 */
module UserApi {
  import opened Common
  import opened DataModels
  import DownloadFile

  datatype GetUsersParams = GetUsersParams(page: Option<int>, limit: Option<int>, search: Option<string>, filter: Option<UserFilter>)

  /** `if (n)` for a `number | undefined`: present and not zero. */
  predicate TruthyNumber(n: Option<int>) {
    n.Some? && n.value != 0
  }

  function NumberParam(key: string, n: Option<int>): Query {
    if TruthyNumber(n) then [Param(key, IntToString(n.value))] else []
  }

  function SearchParam(search: Option<string>): Query {
    if TruthyString(search) then [Param("search", search.value)] else []
  }

  /** The list query: page, limit and search, each only when truthy, in that order. */
  function UsersQuery(p: GetUsersParams): (q: Query)
    ensures |q| == (if TruthyNumber(p.page) then 1 else 0) + (if TruthyNumber(p.limit) then 1 else 0)
                   + (if TruthyString(p.search) then 1 else 0)
    ensures forall i :: 0 <= i < |q| ==> q[i].key in ["page", "limit", "search"]
  {
    NumberParam("page", p.page) + NumberParam("limit", p.limit) + SearchParam(p.search)
  }

  /** Each parameter is sent exactly when it is truthy, with its own value. */
  lemma UsersQuerySendsTruthy(p: GetUsersParams)
    ensures Lookup(UsersQuery(p), "page") == (if TruthyNumber(p.page) then Some(IntToString(p.page.value)) else None)
    ensures Lookup(UsersQuery(p), "limit") == (if TruthyNumber(p.limit) then Some(IntToString(p.limit.value)) else None)
    ensures Lookup(UsersQuery(p), "search") == (if TruthyString(p.search) then p.search else None)
  {
    var page := NumberParam("page", p.page);
    var limit := NumberParam("limit", p.limit);
    var search := SearchParam(p.search);
    assert UsersQuery(p) == (page + limit) + search;
    LookupAppend(page, limit, "page");
    LookupAppend(page, limit, "limit");
    LookupAppend(page, limit, "search");
    LookupAppend(page + limit, search, "page");
    LookupAppend(page + limit, search, "limit");
    LookupAppend(page + limit, search, "search");
  }

  /** `getUsers`: appends the truthy parameters and calls `GET users/list?…`. */
  method GetUsers(p: GetUsersParams) returns (call: HttpCall)
    ensures call == HttpCall(Get, "users/list", UsersQuery(p))
  {
    var query: Query := [];
    if p.page.Some? && p.page.value != 0 {
      query := query + [Param("page", IntToString(p.page.value))];
    }
    if p.limit.Some? && p.limit.value != 0 {
      query := query + [Param("limit", IntToString(p.limit.value))];
    }
    if TruthyString(p.search) {
      query := query + [Param("search", p.search.value)];
    }
    call := HttpCall(Get, "users/list", query);
  }

  /** The user filter is accepted but never sent. */
  lemma UserFilterIgnored(p: GetUsersParams, other: Option<UserFilter>)
    ensures UsersQuery(p) == UsersQuery(p.(filter := other))
  {
  }

  /** The download that `exportUsersCsv` asks for. */
  function ExportArgs(search: Option<string>): DownloadFile.DownloadArgs {
    DownloadFile.DownloadArgs("users/export", Some(SearchParam(search)), None, Some(DownloadFile.DownloadGet), None, None)
  }

  /** `exportUsersCsv`: a GET download of `users/export` with the search text as a parameter. */
  method ExportUsersCsv(search: Option<string>, filter: Option<UserFilter>) returns (args: DownloadFile.DownloadArgs)
    ensures args == ExportArgs(search)
    ensures args.searchParams.Some? && Lookup(args.searchParams.value, "search") == (if TruthyString(search) then search else None)
  {
    var query: Query := [];
    if TruthyString(search) {
      query := query + [Param("search", search.value)];
      assert query == SearchParam(search);
    }
    args := DownloadFile.DownloadArgs("users/export", Some(query), None, Some(DownloadFile.DownloadGet), None, None);
  }

  /** As written, the export request carries no search text: a GET download drops its search parameters. */
  lemma ExportDropsSearch(search: Option<string>)
    ensures DownloadFile.RequestFor(ExportArgs(search)) == DownloadFile.DownloadRequest(Get, "users/export", None, None)
    ensures DownloadFile.RequestFor(ExportArgs(Some("bob"))) == DownloadFile.RequestFor(ExportArgs(None))
  {
  }

  /** With the intended request the export sends the search text exactly when there is one. */
  lemma IntendedExportSendsSearch(search: Option<string>)
    ensures var r := DownloadFile.IntendedRequestFor(ExportArgs(search));
            r.verb == Get && r.searchParams.Some?
            && Lookup(r.searchParams.value, "search") == (if TruthyString(search) then search else None)
  {
  }

  function CreateUser(): HttpCall {
    HttpCall(Post, "users/create-agent", [])
  }

  function UpdateUser(): HttpCall {
    HttpCall(Put, "users/update", [])
  }

  /** `{ id, ...data }`: every field of `data`, plus `id`, which a field of `data` named `id` overrides. */
  function UpdateUserBody(id: string, data: Record): (body: Record)
    ensures body.Keys == data.Keys + {"id"}
    ensures forall k :: k in data ==> body[k] == data[k]
    ensures "id" !in data ==> body["id"] == JsString(id)
  {
    map["id" := JsString(id)] + data
  }

  /** The id goes into the path as typed, without URL encoding. */
  function DeleteUser(id: string): HttpCall {
    HttpCall(Delete, "users/delete?id=" + id, [])
  }

  /** The id goes into the path as typed, without URL encoding. */
  function GetUserDetails(id: string): HttpCall {
    HttpCall(Get, "users/details?id=" + id, [])
  }

  /** Deleting and reading details address different paths for any two ids. */
  lemma DeleteNeverReadsDetails(a: string, b: string)
    ensures DeleteUser(a).path != GetUserDetails(b).path
  {
    assert DeleteUser(a).path[8] == 'l' && GetUserDetails(b).path[8] == 't';
  }
}
