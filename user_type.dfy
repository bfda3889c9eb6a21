/**
 * The user's kind (admin, agent, regular user or unknown), read from the
 * role name of the signed-in user without regard to letter case.
 */
module UserType {
  import opened Common
  import opened DataModels

  datatype UserKind = Admin | Agent | RegularUser | Unknown

  /** `user?.role?.name`: only a role object carries a name. */
  function RoleName(user: Option<UserDto>): (r: Option<string>)
    ensures r.Some? <==> user.Some? && user.value.role.Some? && user.value.role.value.RoleObject?
                         && user.value.role.value.name.Some?
  {
    if user.Some? && user.value.role.Some? && user.value.role.value.RoleObject? then user.value.role.value.name
    else None
  }

  /** The kind named by a lower-cased role name. */
  function KindOfRoleName(lowered: string): UserKind {
    if lowered == "admin" || lowered == "super admin" then Admin
    else if lowered == "agent" then Agent
    else if lowered == "user" then RegularUser
    else Unknown
  }

  /**
   * `getUserType`: unknown without a non-empty role name; otherwise the
   * lower-cased name decides ("admin" and "super admin" are admins).
   */
  function GetUserType(user: Option<UserDto>): (r: UserKind)
    ensures !TruthyString(RoleName(user)) ==> r == Unknown
    ensures TruthyString(RoleName(user)) ==>
              var lowered := ToLower(RoleName(user).value);
              (r == Admin <==> lowered == "admin" || lowered == "super admin")
              && (r == Agent <==> lowered == "agent")
              && (r == RegularUser <==> lowered == "user")
  {
    var name := RoleName(user);
    if !TruthyString(name) then Unknown else KindOfRoleName(ToLower(name.value))
  }

  predicate IsAdmin(user: Option<UserDto>) { GetUserType(user) == Admin }

  predicate IsAgent(user: Option<UserDto>) { GetUserType(user) == Agent }

  predicate IsRegularUser(user: Option<UserDto>) { GetUserType(user) == RegularUser }

  /** Admins and agents have elevated privileges. */
  predicate HasElevatedPrivileges(user: Option<UserDto>) {
    var kind := GetUserType(user);
    kind == Admin || kind == Agent
  }

  /** At most one of the kind predicates holds, and elevated means admin or agent. */
  lemma KindsExclusive(user: Option<UserDto>)
    ensures !(IsAdmin(user) && IsAgent(user)) && !(IsAdmin(user) && IsRegularUser(user))
            && !(IsAgent(user) && IsRegularUser(user))
    ensures HasElevatedPrivileges(user) <==> IsAdmin(user) || IsAgent(user)
  {
  }

  function WithRole(user: UserDto, role: Option<RoleValue>): UserDto {
    user.(role := role)
  }

  /** The kind does not depend on letter case. */
  lemma KindIgnoresCase(user: UserDto, name: string)
    ensures GetUserType(Some(WithRole(user, Some(RoleObject(Some(name))))))
            == GetUserType(Some(WithRole(user, Some(RoleObject(Some(ToLower(name)))))))
  {
    ToLowerIdempotent(name);
  }

  /** A few role names and what they make of a user. */
  lemma KindExamples(user: UserDto)
    ensures IsAdmin(Some(WithRole(user, Some(RoleObject(Some("Super Admin"))))))
    ensures IsAdmin(Some(WithRole(user, Some(RoleObject(Some("ADMIN"))))))
    ensures IsAgent(Some(WithRole(user, Some(RoleObject(Some("Agent"))))))
    ensures GetUserType(Some(WithRole(user, Some(RoleText("admin"))))) == Unknown
    ensures GetUserType(Some(WithRole(user, Some(RoleObject(Some("superadmin")))))) == Unknown
    ensures GetUserType(None) == Unknown
  {
  }
}
