/**
 * Session checks used by the counting page: whether the session is usable,
 * exact role checks, and the forced logout with its alert.
 */
module AuthUtils {
  import opened Common
  import opened DataModels
  import opened UserStore
  import UserType

  /** `!!(isAuthorized && accessToken && user)` */
  predicate IsAuthenticated(s: Session) {
    s.isAuthorized && TruthyString(s.accessToken) && s.user.Some?
  }

  /** `user?.role?.name === role`: exact, case-sensitive comparison. */
  predicate HasRole(s: Session, role: string) {
    UserType.RoleName(s.user) == Some(role)
  }

  predicate IsAdmin(s: Session) { HasRole(s, "admin") }

  predicate IsAgent(s: Session) { HasRole(s, "agent") }

  /** For a consistent store, being authenticated only adds that the access token is not empty. */
  lemma AuthenticatedIffNonEmptyToken(s: Session)
    requires Consistent(s)
    ensures IsAuthenticated(s) <==> s.isAuthorized && s.accessToken.value != ""
  {
  }

  /** The exact-name check is stricter than the user kind: every exact admin is an admin kind, not conversely. */
  lemma ExactAdminIsAdminKind(s: Session, u: UserDto)
    ensures IsAdmin(s) ==> UserType.IsAdmin(s.user)
    ensures var t := Session(true, Some(u.(role := Some(RoleObject(Some("Admin"))))), Some("t"), Some("t"));
            UserType.IsAdmin(t.user) && !IsAdmin(t)
  {
  }

  /** The alert shown by a forced logout. */
  function ForceLogoutMessage(reason: Option<string>): (r: string)
    ensures TruthyString(reason) ==> r == "Session expired: " + reason.value + ". Please log in again."
    ensures !TruthyString(reason) ==> r == "Your session has expired. Please log in again."
  {
    if TruthyString(reason) then "Session expired: " + reason.value + ". Please log in again."
    else "Your session has expired. Please log in again."
  }

  /** `forceLogout`: alert, clear the store and go to the login page. */
  method ForceLogout(store: Store, location: BrowserLocation, reason: Option<string>) returns (alertText: string)
    modifies store, location
    ensures alertText == ForceLogoutMessage(reason)
    ensures store.Snapshot() == DefaultSession && !IsAuthenticated(store.Snapshot())
    ensures location.href == "/login"
  {
    alertText := ForceLogoutMessage(reason);
    store.Logout();
    location.href := "/login";
  }
}
