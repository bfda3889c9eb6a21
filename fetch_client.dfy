/**
 * The shared HTTP client's hooks: the headers set before every request,
 * the 401 handling after a response (forced logout, one token refresh and
 * a re-issue, or logout when that fails), and the redirect to the error
 * page for the handled error statuses. What the network returns (the
 * status, whether the 401 body parses, how the refresh ends) is an input.
 */
module FetchClient {
  import opened Common
  import opened UserStore

  const DefaultClientId := "road-traffic-survey-ui"
  const DefaultApiBaseUrl := "http://localhost:5000/api"
  /** Every call through the client times out after this many milliseconds. */
  const TimeoutMs := 15000

  /** `VITE_CLIENT_ID_HEADER || 'road-traffic-survey-ui'`: never empty. */
  function ConfiguredClientId(env: Option<string>): (r: string)
    ensures r != ""
    ensures TruthyString(env) ==> r == env.value
    ensures !TruthyString(env) ==> r == DefaultClientId
  {
    TruthyOr(env, DefaultClientId)
  }

  /** `VITE_API_BASE_URL || 'http://localhost:5000/api'`: never empty. */
  function ConfiguredBaseUrl(env: Option<string>): (r: string)
    ensures r != ""
    ensures TruthyString(env) ==> r == env.value
    ensures !TruthyString(env) ==> r == DefaultApiBaseUrl
  {
    TruthyOr(env, DefaultApiBaseUrl)
  }

  type Headers = map<string, string>

  /** An outgoing request, as far as the hooks change it: its headers. */
  class HttpRequest {
    var headers: Headers

    constructor (headers: Headers)
      ensures this.headers == headers
    {
      this.headers := headers;
    }
  }

  function Bearer(token: string): string {
    "Bearer " + token
  }

  /** The headers after both before-request hooks: the client id first, then the bearer token. */
  function Prepared(headers: Headers, clientId: string, accessToken: Option<string>): (r: Headers)
    ensures "ClientId" in r <==> clientId != "" || "ClientId" in headers
    ensures "Authorization" in r <==> TruthyString(accessToken) || "Authorization" in headers
    ensures TruthyString(accessToken) ==> r["Authorization"] == Bearer(accessToken.value)
    ensures clientId != "" ==> r["ClientId"] == clientId
    ensures forall k :: k in headers && k != "ClientId" && k != "Authorization" ==> k in r && r[k] == headers[k]
    ensures r.Keys <= headers.Keys + {"ClientId", "Authorization"}
  {
    var withClient := if clientId != "" then headers["ClientId" := clientId] else headers;
    if TruthyString(accessToken) then withClient["Authorization" := Bearer(accessToken.value)] else withClient
  }

  /** `clientIdMiddleWare`: sets `ClientId` when one is configured. */
  method ClientIdMiddleware(request: HttpRequest, clientId: string)
    modifies request
    ensures request.headers == if clientId != "" then old(request.headers)["ClientId" := clientId] else old(request.headers)
  {
    if clientId != "" {
      request.headers := request.headers["ClientId" := clientId];
    }
  }

  /** `authTokenMiddleWare`: sets `Authorization: Bearer …` when the store holds a non-empty access token. */
  method AuthTokenMiddleware(request: HttpRequest, store: Store)
    modifies request
    ensures request.headers == if TruthyString(store.accessToken)
                               then old(request.headers)["Authorization" := Bearer(store.accessToken.value)]
                               else old(request.headers)
  {
    var accessToken := store.accessToken;
    if accessToken.Some? && accessToken.value != "" {
      request.headers := request.headers["Authorization" := Bearer(accessToken.value)];
    }
  }

  /** The before-request hooks of the shared client, in their order. */
  method BeforeRequest(request: HttpRequest, store: Store, clientId: string)
    modifies request
    ensures request.headers == Prepared(old(request.headers), clientId, store.accessToken)
  {
    ClientIdMiddleware(request, clientId);
    AuthTokenMiddleware(request, store);
  }

  /** With the configured client id, every request carries a `ClientId` header. */
  lemma ClientIdAlwaysSent(headers: Headers, env: Option<string>, accessToken: Option<string>)
    ensures var r := Prepared(headers, ConfiguredClientId(env), accessToken);
            "ClientId" in r && r["ClientId"] == ConfiguredClientId(env)
  {
  }

  /** A request that had no `Authorization` header gets one exactly when the token is non-empty. */
  lemma AuthorizationIffToken(headers: Headers, clientId: string, accessToken: Option<string>)
    requires "Authorization" !in headers
    ensures "Authorization" in Prepared(headers, clientId, accessToken) <==> TruthyString(accessToken)
  {
  }

  const HandledStatuses: seq<int> := [403, 500, 502, 503, 504]

  /** `redirectToErrorPage`: where the browser goes, if anywhere. */
  function ErrorPageTarget(status: int, href: string): (r: Option<string>)
    ensures r.Some? <==> status in HandledStatuses && !Contains(href, "/login")
    ensures r.Some? ==> r.value == "/error/" + IntToString(status)
  {
    if status in HandledStatuses && !Contains(href, "/login") then Some("/error/" + IntToString(status)) else None
  }

  method RedirectToErrorPage(status: int, location: BrowserLocation)
    modifies location
    ensures location.href == match ErrorPageTarget(status, old(location.href))
                             case Some(target) => target
                             case None => old(location.href)
  {
    if status in HandledStatuses && !Contains(location.href, "/login") {
      location.href := "/error/" + IntToString(status);
    }
  }

  /** 401 and 404 never lead to the error page; neither does any status on the login page. */
  lemma UnhandledStatusesStay(href: string)
    ensures ErrorPageTarget(401, href).None? && ErrorPageTarget(404, href).None?
    ensures ErrorPageTarget(500, "/login").None?
  {
    assert Contains("/login", "/login") by {
      ContainsAt("/login", "/login", 0);
    }
  }

  /** The status is read back from the error page's path. */
  lemma ErrorTargetCarriesStatus(status: int, href: string)
    requires ErrorPageTarget(status, href).Some?
    ensures var t := ErrorPageTarget(status, href).value;
            |t| > 7 && t[..7] == "/error/" && ParseInt(t[7..]) == Some(status)
  {
    var t := "/error/" + IntToString(status);
    assert t[7..] == IntToString(status);
    ParseIntOfIntToString(status);
  }

  /** The 401 body, as far as the hook reads it: not JSON, or JSON with this `error` value. */
  datatype ResponseBody = NotJson | JsonBody(error: JsValue)

  /** How the refresh call ends. */
  datatype RefreshOutcome = RefreshFailed | RefreshSucceeded(accessToken: string)

  /** The refresh call: `POST auth/refresh-token` with the stored refresh token, and the client id. */
  datatype RefreshCall = RefreshCall(refreshToken: Option<string>, clientIdHeader: Option<string>)

  /** What the after-response hook yields: the original response, or the request sent again with these headers. */
  datatype AfterResponse = PassedThrough | Reissued(headers: Headers)

  predicate IsForceLogout(body: ResponseBody) {
    body.JsonBody? && body.error == JsString("force_logout")
  }

  /** Whether a 401 leads to a refresh attempt: any parsed body without the force-logout marker. */
  predicate AttemptsRefresh(status: int, body: ResponseBody) {
    status == 401 && body.JsonBody? && !IsForceLogout(body)
  }

  /** `refreshTokenMiddleWare`. */
  method RefreshTokenMiddleware(request: HttpRequest, status: int, body: ResponseBody, refresh: RefreshOutcome,
                                store: Store, location: BrowserLocation, clientId: string)
    returns (result: AfterResponse, refreshSent: Option<RefreshCall>)
    modifies request, store, location
    ensures refreshSent.Some? <==> AttemptsRefresh(status, body)
    ensures refreshSent.Some? ==>
              refreshSent.value == RefreshCall(old(store.refreshToken), if clientId != "" then Some(clientId) else None)
    ensures status != 401 ==>
              result == PassedThrough && store.Snapshot() == old(store.Snapshot())
              && request.headers == old(request.headers)
              && location.href == match ErrorPageTarget(status, old(location.href))
                                  case Some(target) => target
                                  case None => old(location.href)
    ensures status == 401 && !(AttemptsRefresh(status, body) && refresh.RefreshSucceeded?) ==>
              result == PassedThrough && store.Snapshot() == DefaultSession
              && request.headers == old(request.headers) && location.href == "/login"
    ensures AttemptsRefresh(status, body) && refresh.RefreshSucceeded? ==>
              store.Snapshot() == old(store.Snapshot()).(accessToken := Some(refresh.accessToken))
              && request.headers == old(request.headers)["Authorization" := Bearer(refresh.accessToken)]
              && result == Reissued(request.headers)
              && location.href == old(location.href)
  {
    result := PassedThrough;
    refreshSent := None;
    if status == 401 {
      if body.NotJson? {
        store.Logout();
        location.href := "/login";
      } else if body.error == JsString("force_logout") {
        store.Logout();
        location.href := "/login";
      } else {
        refreshSent := Some(RefreshCall(store.refreshToken, if clientId != "" then Some(clientId) else None));
        match refresh
        case RefreshFailed =>
          store.Logout();
          location.href := "/login";
        case RefreshSucceeded(accessToken) =>
          store.UpdateAccessToken(accessToken);
          request.headers := request.headers["Authorization" := Bearer(accessToken)];
          result := Reissued(request.headers);
          return;
      }
    }
    RedirectToErrorPage(status, location);
    assert status == 401 ==> location.href == "/login" by {
      if status == 401 {
        assert !(401 in HandledStatuses);
      }
    }
  }
}
