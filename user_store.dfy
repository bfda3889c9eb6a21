/**
 * The session store: whether the user is signed in, the signed-in user and
 * the two tokens, with sign-in, logout, token update and profile update.
 */
module UserStore {
  import opened Common
  import opened DataModels

  /** The store's contents. */
  datatype Session = Session(
    isAuthorized: bool,
    user: Option<UserDto>,
    accessToken: Option<string>,
    refreshToken: Option<string>)

  /** The signed-out contents the store starts with and returns to on logout. */
  const DefaultSession := Session(false, None, None, None)

  /** The user record kept at sign-in: the response's `_id` becomes `id`. */
  function UserFromAuth(user: AuthUser): (r: UserDto)
    ensures r.id == user.mongoId && r.email == user.email && r.fullName == user.fullName
    ensures r.phone == user.phone && r.role == user.role
  {
    UserDto(user.mongoId, user.email, user.fullName, user.phone, user.role)
  }

  /** A partial profile update: `None` leaves a field as it is. */
  datatype UserPatch = UserPatch(
    id: Option<string>,
    email: Option<string>,
    fullName: Option<string>,
    phone: Option<string>,
    role: Option<RoleValue>)

  /** `{ ...user, ...patch }`: every field the patch carries wins, every other field is kept. */
  function Merge(user: UserDto, patch: UserPatch): (r: UserDto)
    ensures r.id == NullishOr(patch.id, user.id) && r.email == NullishOr(patch.email, user.email)
    ensures r.fullName == NullishOr(patch.fullName, user.fullName)
    ensures r.phone == (if patch.phone.Some? then patch.phone else user.phone)
    ensures r.role == (if patch.role.Some? then patch.role else user.role)
  {
    UserDto(NullishOr(patch.id, user.id), NullishOr(patch.email, user.email), NullishOr(patch.fullName, user.fullName),
            if patch.phone.Some? then patch.phone else user.phone,
            if patch.role.Some? then patch.role else user.role)
  }

  /** Applying the same patch twice is applying it once; an empty patch changes nothing. */
  lemma MergeIdempotent(user: UserDto, patch: UserPatch)
    ensures Merge(Merge(user, patch), patch) == Merge(user, patch)
    ensures Merge(user, UserPatch(None, None, None, None, None)) == user
  {
  }

  /**
   * The invariant every operation keeps: the store is signed in exactly when
   * it holds a user, and a signed-in store holds an access token.
   */
  predicate Consistent(s: Session) {
    (s.isAuthorized <==> s.user.Some?) && (s.isAuthorized ==> s.accessToken.Some?)
  }

  /** Hence a consistent store is signed in exactly when it holds both an access token and a user. */
  lemma SignedInIffTokenAndUser(s: Session)
    requires Consistent(s)
    ensures s.isAuthorized <==> s.accessToken.Some? && s.user.Some?
  {
  }

  lemma DefaultConsistent()
    ensures Consistent(DefaultSession)
  {
  }

  class Store {
    var isAuthorized: bool
    var user: Option<UserDto>
    var accessToken: Option<string>
    var refreshToken: Option<string>

    function Snapshot(): Session
      reads this
    {
      Session(isAuthorized, user, accessToken, refreshToken)
    }

    constructor ()
      ensures Snapshot() == DefaultSession
    {
      isAuthorized := false;
      user := None;
      accessToken := None;
      refreshToken := None;
    }

    /** Signing in keeps the response token as both access and refresh token, and the user. */
    method SignInWithCredentials(results: AuthResults)
      modifies this
      ensures Snapshot() == Session(true, Some(UserFromAuth(results.user)), Some(results.token), Some(results.token))
      ensures Consistent(Snapshot())
    {
      isAuthorized := true;
      accessToken := Some(results.token);
      refreshToken := Some(results.token);
      user := Some(UserFromAuth(results.user));
    }

    /** Logging out restores the signed-out contents (so it is idempotent). */
    method Logout()
      modifies this
      ensures Snapshot() == DefaultSession
      ensures Consistent(Snapshot())
    {
      isAuthorized := false;
      user := None;
      accessToken := None;
      refreshToken := None;
    }

    /** Only the access token changes. */
    method UpdateAccessToken(token: string)
      modifies this
      ensures Snapshot() == old(Snapshot()).(accessToken := Some(token))
      ensures old(Consistent(Snapshot())) ==> Consistent(Snapshot())
    {
      accessToken := Some(token);
    }

    /** The patch is merged into the user; with no user there is still none. */
    method UpdateUserData(patch: UserPatch)
      modifies this
      ensures Snapshot() == old(Snapshot()).(user := if old(user).Some? then Some(Merge(old(user).value, patch)) else None)
      ensures old(Consistent(Snapshot())) ==> Consistent(Snapshot())
    {
      if user.Some? {
        user := Some(Merge(user.value, patch));
      }
    }
  }

  /** Updating the token of a signed-out store does not sign it in. */
  lemma TokenUpdateKeepsSignedOut(token: string)
    ensures !DefaultSession.(accessToken := Some(token)).isAuthorized
    ensures Consistent(DefaultSession.(accessToken := Some(token)))
  {
  }
}
