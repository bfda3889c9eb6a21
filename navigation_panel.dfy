/**
 * The header's navigation links: which links are shown for the session and
 * which one is styled as active for the current location.
 */
module NavigationPanel {
  import opened Common
  import opened DataModels
  import UserType

  /** The root link is active only on `/`; any other link on every location that starts with its path. */
  predicate IsActive(path: string, currentPath: string) {
    if path == "/" then currentPath == "/" else path <= currentPath
  }

  datatype LinkStyle = ActiveStyle | SecondaryStyle

  /** `getTriggerClass`, reduced to which of its two class sets it adds. */
  function TriggerClass(path: string, currentPath: string): (r: LinkStyle)
    ensures r == ActiveStyle <==> IsActive(path, currentPath)
  {
    if IsActive(path, currentPath) then ActiveStyle else SecondaryStyle
  }

  datatype NavLink = NavLink(path: string, titleKey: string, style: LinkStyle)

  function Link(path: string, titleKey: string, location: string): NavLink {
    NavLink(path, titleKey, TriggerClass(path, location))
  }

  /**
   * The panel: nothing when signed out; otherwise home, users (for admins
   * only) and surveys, in that order.
   */
  function Links(isAuthorized: bool, user: Option<UserDto>, location: string): (r: seq<NavLink>)
    ensures !isAuthorized ==> r == []
    ensures isAuthorized ==> |r| == (if UserType.IsAdmin(user) then 3 else 2)
                             && r[0].path == "/" && r[|r| - 1].path == "/surveys"
    ensures (exists i :: 0 <= i < |r| && r[i].path == "/users") <==> isAuthorized && UserType.IsAdmin(user)
    ensures forall i :: 0 <= i < |r| ==> r[i].style == TriggerClass(r[i].path, location)
  {
    if !isAuthorized then []
    else
      var home := Link("/", "home", location);
      var surveys := Link("/surveys", "surveys", location);
      assert "/" != "/users" && "/surveys" != "/users";
      if UserType.IsAdmin(user) then
        var r := [home, Link("/users", "users", location), surveys];
        assert r[1].path == "/users";
        r
      else [home, surveys]
  }

  lemma {:induction false} PrefixesDiffer(a: string, b: string, location: string)
    requires |a| > 1 && |b| > 1 && a[1] != b[1]
    ensures !(a <= location && b <= location)
  {
  }

  /** At most one shown link is active, whatever the location. */
  lemma AtMostOneActive(isAuthorized: bool, user: Option<UserDto>, location: string, i: int, j: int)
    requires 0 <= i < |Links(isAuthorized, user, location)| && 0 <= j < |Links(isAuthorized, user, location)|
    requires Links(isAuthorized, user, location)[i].style == ActiveStyle
    requires Links(isAuthorized, user, location)[j].style == ActiveStyle
    ensures i == j
  {
    PrefixesDiffer("/users", "/surveys", location);
    assert !IsActive("/users", "/") && !IsActive("/surveys", "/");
  }

  /** The active test is a prefix test: `/users` is also active on `/users-archive`, and the root only on `/`. */
  lemma ActiveIsPrefix()
    ensures IsActive("/users", "/users-archive") && IsActive("/surveys", "/surveys/12")
    ensures !IsActive("/", "/surveys") && IsActive("/", "/")
  {
  }
}
