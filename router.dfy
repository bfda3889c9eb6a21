/**
 * The top-level router: which routes exist for the session, which page a
 * location renders, and when a signed-out visitor is sent to the login page.
 */
module Router {
  import opened Common

  datatype Page = LoginPage | ChangePasswordPage | ResetPasswordPage | HomePage | ErrorsPage

  datatype Route = Route(path: string, authorizationRequired: bool, content: Page)

  /** The route table. */
  const Routes: seq<Route> := [
    Route("/login", false, LoginPage),
    Route("/change-password", true, ChangePasswordPage),
    Route("/reset-password", false, ResetPasswordPage),
    Route("/", true, HomePage),
    Route("/error/:errorCode", false, ErrorsPage)
  ]

  /** `ROUTES.filter(...)`: every route when signed in, the public ones otherwise, in table order. */
  function AvailableRoutes(routes: seq<Route>, isAuthorized: bool): (r: seq<Route>)
    ensures |r| <= |routes|
    ensures isAuthorized ==> r == routes
  {
    if |routes| == 0 then []
    else if routes[0].authorizationRequired && !isAuthorized then AvailableRoutes(routes[1..], isAuthorized)
    else [routes[0]] + AvailableRoutes(routes[1..], isAuthorized)
  }

  /** A route is available exactly when it is in the table and public or the session is signed in. */
  lemma {:induction false} AvailableRoutesMembers(routes: seq<Route>, isAuthorized: bool, route: Route)
    ensures route in AvailableRoutes(routes, isAuthorized)
            <==> route in routes && (isAuthorized || !route.authorizationRequired)
  {
    if |routes| > 0 {
      AvailableRoutesMembers(routes[1..], isAuthorized, route);
      assert routes == [routes[0]] + routes[1..];
    }
  }

  /** Filtering keeps the table's order: it distributes over concatenation. */
  lemma {:induction false} AvailableRoutesAppend(a: seq<Route>, b: seq<Route>, isAuthorized: bool)
    ensures AvailableRoutes(a + b, isAuthorized) == AvailableRoutes(a, isAuthorized) + AvailableRoutes(b, isAuthorized)
  {
    if |a| > 0 {
      assert (a + b)[0] == a[0];
      assert (a + b)[1..] == a[1..] + b;
      AvailableRoutesAppend(a[1..], b, isAuthorized);
    } else {
      assert a + b == b;
    }
  }

  /** The routes a signed-out visitor has: login, reset password and the error page. */
  lemma SignedOutRoutes()
    ensures AvailableRoutes(Routes, false) == [Routes[0], Routes[2], Routes[4]]
  {
    var tail := Routes[4..];
    assert tail == [Routes[4]] && tail[1..] == [];
    KeptHead(tail, false);
    assert Routes[3..][1..] == tail;
    DroppedHead(Routes[3..], false);
    assert Routes[2..][1..] == Routes[3..];
    KeptHead(Routes[2..], false);
    assert Routes[1..][1..] == Routes[2..];
    DroppedHead(Routes[1..], false);
    KeptHead(Routes, false);
  }

  lemma KeptHead(routes: seq<Route>, isAuthorized: bool)
    requires |routes| > 0 && (isAuthorized || !routes[0].authorizationRequired)
    ensures AvailableRoutes(routes, isAuthorized) == [routes[0]] + AvailableRoutes(routes[1..], isAuthorized)
  {
  }

  lemma DroppedHead(routes: seq<Route>, isAuthorized: bool)
    requires |routes| > 0 && !isAuthorized && routes[0].authorizationRequired
    ensures AvailableRoutes(routes, isAuthorized) == AvailableRoutes(routes[1..], isAuthorized)
  {
  }

  /** A public route's path is exactly the location: patterns are compared as plain text here. */
  predicate IsPublicRoute(routes: seq<Route>, location: string) {
    exists i :: 0 <= i < |routes| && routes[i].path == location && !routes[i].authorizationRequired
  }

  /** The effect's decision: go to `/login` when signed out and not on a public route's path. */
  function LoginRedirect(routes: seq<Route>, isAuthorized: bool, location: string): (r: Option<string>)
    ensures r.Some? <==> !isAuthorized && !IsPublicRoute(routes, location)
    ensures r.Some? ==> r.value == "/login"
  {
    if !isAuthorized && !IsPublicRoute(routes, location) then Some("/login") else None
  }

  /** A signed-in session is never redirected, and the login page itself never redirects. */
  lemma LoginRedirectCases(location: string)
    ensures LoginRedirect(Routes, true, location).None?
    ensures LoginRedirect(Routes, false, "/login").None?
  {
    assert Routes[0].path == "/login" && !Routes[0].authorizationRequired;
  }

  /** The position of the first `:` in a path at or after `i`, if any. */
  function ParamStart(path: string, i: nat): (r: Option<nat>)
    ensures r.Some? ==> i <= r.value < |path| && path[r.value] == ':'
    decreases |path| - i
  {
    if i >= |path| then None
    else if path[i] == ':' then Some(i)
    else ParamStart(path, i + 1)
  }

  predicate NoSlash(s: string) {
    forall k :: 0 <= k < |s| ==> s[k] != '/'
  }

  /**
   * Whether a route path matches a location: a path without a parameter
   * matches itself; a path ending in a `:name` segment matches its prefix
   * followed by one non-empty segment.
   */
  predicate PatternMatches(path: string, location: string) {
    match ParamStart(path, 0)
    case None => location == path
    case Some(k) =>
      var prefix := path[..k];
      prefix <= location && |location| > k && NoSlash(location[k..])
  }

  /** The page the switch renders: the first available route that matches, else the login page. */
  function Rendered(routes: seq<Route>, isAuthorized: bool, location: string): (p: Page)
    ensures (forall route :: route in AvailableRoutes(routes, isAuthorized) ==> !PatternMatches(route.path, location))
            ==> p == LoginPage
  {
    FirstMatching(AvailableRoutes(routes, isAuthorized), location)
  }

  function FirstMatching(routes: seq<Route>, location: string): (p: Page)
    ensures (exists i :: 0 <= i < |routes| && PatternMatches(routes[i].path, location))
            ==> exists i :: 0 <= i < |routes| && PatternMatches(routes[i].path, location) && p == routes[i].content
    ensures (forall route :: route in routes ==> !PatternMatches(route.path, location)) ==> p == LoginPage
    ensures forall i :: 0 <= i < |routes| && PatternMatches(routes[i].path, location)
                        && (forall j :: 0 <= j < i ==> !PatternMatches(routes[j].path, location))
                        ==> p == routes[i].content
  {
    if |routes| == 0 then LoginPage
    else if PatternMatches(routes[0].path, location) then routes[0].content
    else
      var p := FirstMatching(routes[1..], location);
      assert forall i :: 1 <= i < |routes| ==> routes[i] == routes[1..][i - 1];
      p
  }

  lemma ErrorPattern()
    ensures PatternMatches("/error/:errorCode", "/error/500")
    ensures !PatternMatches("/error/:errorCode", "/")
  {
    assert ParamStart("/error/:errorCode", 0) == Some(7);
    assert "/error/:errorCode"[..7] == "/error/";
    assert "/error/500"[7..] == "500";
  }

  lemma PublicPathsMissErrorPage()
    ensures !PatternMatches("/login", "/error/500") && !PatternMatches("/reset-password", "/error/500")
  {
  }

  lemma SkipFirst(routes: seq<Route>, location: string)
    requires |routes| > 0 && !PatternMatches(routes[0].path, location)
    ensures FirstMatching(routes, location) == FirstMatching(routes[1..], location)
  {
  }

  lemma TakeFirst(routes: seq<Route>, location: string)
    requires |routes| > 0 && PatternMatches(routes[0].path, location)
    ensures FirstMatching(routes, location) == routes[0].content
  {
  }

  /**
   * A signed-out visitor on an error page sees it rendered, yet is sent to
   * the login page: the public-route test compares `/error/500` with the
   * pattern `/error/:errorCode` as plain text.
   */
  lemma SignedOutErrorPageRedirects()
    ensures Rendered(Routes, false, "/error/500") == ErrorsPage
    ensures LoginRedirect(Routes, false, "/error/500") == Some("/login")
  {
    ErrorPageRendered();
    ErrorPathNotPublic();
  }

  lemma ErrorPathNotPublic()
    ensures !IsPublicRoute(Routes, "/error/500")
  {
    forall i | 0 <= i < |Routes|
      ensures Routes[i].path != "/error/500"
    {
      assert i == 0 || i == 1 || i == 2 || i == 3 || i == 4;
    }
  }

  lemma ErrorPageRendered()
    ensures Rendered(Routes, false, "/error/500") == ErrorsPage
  {
    SignedOutRoutes();
    var shown := [Routes[0], Routes[2], Routes[4]];
    PublicPathsMissErrorPage();
    ErrorPattern();
    SkipFirst(shown, "/error/500");
    assert shown[1..] == [Routes[2], Routes[4]];
    SkipFirst(shown[1..], "/error/500");
    assert shown[1..][1..] == [Routes[4]];
    TakeFirst(shown[1..][1..], "/error/500");
  }

  /** A path without a `:` has no parameter from `i` on. */
  lemma {:induction false} NoParamStart(path: string, i: nat)
    requires forall k :: 0 <= k < |path| ==> path[k] != ':'
    ensures ParamStart(path, i).None?
    decreases |path| - i
  {
    if i < |path| {
      NoParamStart(path, i + 1);
    }
  }

  /** A path without a parameter matches exactly itself. */
  lemma PlainPatternMatches(path: string, location: string)
    requires forall k :: 0 <= k < |path| ==> path[k] != ':'
    ensures PatternMatches(path, location) <==> location == path
  {
    NoParamStart(path, 0);
  }

  /** A location of at most one character matches no longer path that starts without a parameter. */
  lemma ShortLocationMisses(path: string, location: string)
    requires |location| <= 1 && |path| >= 2 && path[0] != ':'
    ensures !PatternMatches(path, location)
  {
  }

  /** Signed out, the home page is hidden and its path shows the login page. */
  lemma SignedOutHomeShowsLogin()
    ensures Rendered(Routes, false, "/") == LoginPage
    ensures Rendered(Routes, true, "/") == HomePage
  {
    SignedOutHome();
    SignedInHome();
  }

  lemma SignedOutHome()
    ensures Rendered(Routes, false, "/") == LoginPage
  {
    SignedOutRoutes();
    var shown := [Routes[0], Routes[2], Routes[4]];
    ShortLocationMisses("/login", "/");
    ShortLocationMisses("/reset-password", "/");
    ErrorPattern();
    SkipFirst(shown, "/");
    assert shown[1..] == [Routes[2], Routes[4]];
    SkipFirst(shown[1..], "/");
    assert shown[1..][1..] == [Routes[4]];
    SkipFirst(shown[1..][1..], "/");
    assert shown[1..][1..][1..] == [];
  }

  lemma SignedInHome()
    ensures Rendered(Routes, true, "/") == HomePage
  {
    ShortLocationMisses("/login", "/");
    ShortLocationMisses("/change-password", "/");
    ShortLocationMisses("/reset-password", "/");
    PlainPatternMatches("/", "/");
    SkipFirst(Routes, "/");
    assert Routes[1..] == [Routes[1], Routes[2], Routes[3], Routes[4]];
    SkipFirst(Routes[1..], "/");
    assert Routes[1..][1..] == [Routes[2], Routes[3], Routes[4]];
    SkipFirst(Routes[1..][1..], "/");
    assert Routes[1..][1..][1..] == [Routes[3], Routes[4]];
    TakeFirst(Routes[1..][1..][1..], "/");
  }
}
