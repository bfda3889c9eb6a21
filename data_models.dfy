/**
 * The records the panel exchanges with the back end: surveys with their
 * agents, users with their role, the sign-in response and the two filter
 * objects of the list pages.
 */
module DataModels {
  import opened Common

  /** A survey's agent: absent, an id or name as plain text, or a populated user object. */
  datatype AgentRef =
    | NoAgent
    | AgentText(text: string)
    | AgentObject(id: Option<string>, fullName: Option<string>)

  /** A survey as the list endpoint returns it; `mongoId` is the `_id` field. */
  datatype Survey = Survey(
    id: Option<string>,
    mongoId: Option<string>,
    name: Option<string>,
    startPoint: Option<string>,
    endPoint: Option<string>,
    scheduledStartTime: Option<string>,
    scheduledEndTime: Option<string>,
    status: Option<string>,
    effectiveStatus: Option<string>,
    startPointAgent: AgentRef,
    endPointAgent: AgentRef)

  /** A user's role: the back end sends an object with a name, older records a plain string. */
  datatype RoleValue = RoleObject(name: Option<string>) | RoleText(text: string)

  /** The signed-in user kept in the session store. */
  datatype UserDto = UserDto(
    id: string,
    email: string,
    fullName: string,
    phone: Option<string>,
    role: Option<RoleValue>)

  /** The user part of the sign-in response; `mongoId` is the `_id` field. */
  datatype AuthUser = AuthUser(
    mongoId: string,
    email: string,
    fullName: string,
    phone: Option<string>,
    role: Option<RoleValue>)

  /** The `results` part of the sign-in response. */
  datatype AuthResults = AuthResults(token: string, expiresAt: string, user: AuthUser)

  /** A user as the user list endpoint returns it. */
  datatype ListedUser = ListedUser(
    id: Option<string>,
    email: Option<string>,
    fullName: Option<string>,
    phone: Option<string>,
    role: Option<RoleValue>)

  datatype SurveyFilter = SurveyFilter(search: Option<string>, status: Option<string>)

  datatype UserFilter = UserFilter(search: Option<string>, role: Option<string>, countingPost: Option<string>)

  /** The survey filter object as a plain record. */
  function SurveyFilterRecord(f: SurveyFilter): (r: Record)
    ensures Field(r, "search") == OptionalString(f.search)
    ensures Field(r, "status") == OptionalString(f.status)
    ensures r.Keys == {"search", "status"}
  {
    map["search" := OptionalString(f.search), "status" := OptionalString(f.status)]
  }

  /** The user filter object as a plain record. */
  function UserFilterRecord(f: UserFilter): (r: Record)
    ensures Field(r, "search") == OptionalString(f.search)
    ensures Field(r, "role") == OptionalString(f.role)
    ensures Field(r, "countingPost") == OptionalString(f.countingPost)
    ensures r.Keys == {"search", "role", "countingPost"}
  {
    map["search" := OptionalString(f.search), "role" := OptionalString(f.role),
        "countingPost" := OptionalString(f.countingPost)]
  }
}
