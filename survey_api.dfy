/**
 * The survey endpoints: the list query and the path and verb of every
 * survey call. A call's URL is its path, then `?` and the encoded query
 * when the source builds one; request bodies are passed on unchanged.
 */
module SurveyApi {
  import opened Common
  import opened DataModels

  datatype GetSurveysParams = GetSurveysParams(page: int, limit: int, search: Option<string>, filter: Option<SurveyFilter>)

  /** The status filter that is sent: only a non-empty one. */
  function StatusSent(p: GetSurveysParams): Option<string> {
    if p.filter.Some? && TruthyString(p.filter.value.status) then p.filter.value.status else None
  }

  /** The list query: page and limit always, then search and status when they are non-empty. */
  function SurveysQuery(p: GetSurveysParams): (q: Query)
    ensures |q| == 2 + (if TruthyString(p.search) then 1 else 0) + (if StatusSent(p).Some? then 1 else 0)
    ensures q[0] == Param("page", IntToString(p.page)) && q[1] == Param("limit", IntToString(p.limit))
    ensures forall i :: 0 <= i < |q| ==> q[i].key in ["page", "limit", "search", "status"]
  {
    [Param("page", IntToString(p.page)), Param("limit", IntToString(p.limit))]
    + (if TruthyString(p.search) then [Param("search", p.search.value)] else [])
    + (if StatusSent(p).Some? then [Param("status", StatusSent(p).value)] else [])
  }

  /** Search and status are sent exactly when they are non-empty, with their own values. */
  lemma SurveysQuerySendsNonEmpty(p: GetSurveysParams)
    ensures Lookup(SurveysQuery(p), "search") == (if TruthyString(p.search) then p.search else None)
    ensures Lookup(SurveysQuery(p), "status") == StatusSent(p)
  {
    var fixed := [Param("page", IntToString(p.page)), Param("limit", IntToString(p.limit))];
    var search := if TruthyString(p.search) then [Param("search", p.search.value)] else [];
    var status := if StatusSent(p).Some? then [Param("status", StatusSent(p).value)] else [];
    assert SurveysQuery(p) == (fixed + search) + status;
    assert !HasKey(fixed, "search") && !HasKey(fixed, "status");
    LookupAppend(fixed, search, "search");
    LookupAppend(fixed, search, "status");
    LookupAppend(fixed + search, status, "search");
    LookupAppend(fixed + search, status, "status");
  }

  /** `getSurveys`: appends the parameters one by one and calls `GET surveys?…`. */
  method GetSurveys(p: GetSurveysParams) returns (call: HttpCall)
    ensures call == HttpCall(Get, "surveys", SurveysQuery(p))
  {
    var query: Query := [];
    query := query + [Param("page", IntToString(p.page))];
    query := query + [Param("limit", IntToString(p.limit))];
    if TruthyString(p.search) {
      query := query + [Param("search", p.search.value)];
    }
    if p.filter.Some? && TruthyString(p.filter.value.status) {
      query := query + [Param("status", p.filter.value.status.value)];
    }
    call := HttpCall(Get, "surveys", query);
  }

  /** The filter's own search text is never sent; only the top-level search is. */
  lemma FilterSearchIgnored(p: GetSurveysParams, other: Option<string>)
    requires p.filter.Some?
    ensures SurveysQuery(p) == SurveysQuery(p.(filter := Some(p.filter.value.(search := other))))
  {
  }

  /** The page number sent reads back as the page asked for. */
  lemma PageReadsBack(p: GetSurveysParams)
    ensures ParseInt(Lookup(SurveysQuery(p), "page").value) == Some(p.page)
  {
    ParseIntOfIntToString(p.page);
  }

  function SurveyPath(id: string): string {
    "surveys/" + id
  }

  function GetSurveyById(id: string): HttpCall {
    HttpCall(Get, SurveyPath(id), [])
  }

  function CreateSurvey(): HttpCall {
    HttpCall(Post, "surveys/create", [])
  }

  /** The update goes to the form's own id; a form without one updates `surveys/undefined`. */
  function UpdateSurvey(formId: Option<string>): HttpCall {
    HttpCall(Put, SurveyPath(TemplateText(formId)), [])
  }

  function DeleteSurvey(id: string): HttpCall {
    HttpCall(Delete, SurveyPath(id), [])
  }

  function StartSurvey(id: string): HttpCall {
    HttpCall(Put, SurveyPath(id) + "/start", [])
  }

  function EndSurvey(id: string): HttpCall {
    HttpCall(Put, SurveyPath(id) + "/end", [])
  }

  function GetSurveyStats(): HttpCall {
    HttpCall(Get, "surveys/stats/overview", [])
  }

  function GetAgents(): HttpCall {
    HttpCall(Get, "users/list?role=agent", [])
  }

  lemma {:induction false} SuffixDiffers(a: string, b: string, x: string, y: string)
    requires |x| > 0 && |y| > 0 && x[|x| - 1] != y[|y| - 1]
    ensures a + x != b + y
  {
    assert (a + x)[|a + x| - 1] == x[|x| - 1];
    assert (b + y)[|b + y| - 1] == y[|y| - 1];
  }

  /** Different surveys are addressed by different paths, for every per-survey call. */
  lemma PathsIdentifySurvey(a: string, b: string)
    requires a != b
    ensures GetSurveyById(a) != GetSurveyById(b) && DeleteSurvey(a) != DeleteSurvey(b)
    ensures UpdateSurvey(Some(a)) != UpdateSurvey(Some(b))
    ensures StartSurvey(a) != StartSurvey(b) && EndSurvey(a) != EndSurvey(b)
  {
    assert SurveyPath(a)[8..] == a && SurveyPath(b)[8..] == b;
    assert (SurveyPath(a) + "/start")[..|SurveyPath(a)|] == SurveyPath(a);
    assert (SurveyPath(b) + "/start")[..|SurveyPath(b)|] == SurveyPath(b);
    assert (SurveyPath(a) + "/end")[..|SurveyPath(a)|] == SurveyPath(a);
    assert (SurveyPath(b) + "/end")[..|SurveyPath(b)|] == SurveyPath(b);
  }

  /** Starting one survey never ends another: the two calls never share a path. */
  lemma StartNeverEnds(a: string, b: string)
    ensures StartSurvey(a) != EndSurvey(b)
  {
    SuffixDiffers(SurveyPath(a), SurveyPath(b), "/start", "/end");
  }

  /** Reading, updating and deleting one survey share its path but differ in verb. */
  lemma SamePathDifferentVerb(id: string)
    ensures GetSurveyById(id).path == UpdateSurvey(Some(id)).path == DeleteSurvey(id).path
    ensures GetSurveyById(id).verb != UpdateSurvey(Some(id)).verb && UpdateSurvey(Some(id)).verb != DeleteSurvey(id).verb
    ensures DeleteSurvey(id).verb != GetSurveyById(id).verb
  {
  }

  /** A form without an id sends its update to `surveys/undefined`. */
  lemma UpdateWithoutId()
    ensures UpdateSurvey(None).path == "surveys/undefined"
  {
  }
}
