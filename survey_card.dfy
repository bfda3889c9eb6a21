/**
 * A survey's card: the agent names and status it shows, whether an agent
 * may start the survey now, the reason shown on a disabled start button and
 * which action button a user gets.
 *
 * Times are integer milliseconds. Reading a time text as a date is the
 * parameter `toMillis`; `None` stands for an invalid date, whose every
 * comparison is false, as with JavaScript's NaN.
 */
module SurveyCard {
  import opened Common
  import opened DataModels
  import UserType

  /** An agent object with a non-empty full name shows it; text shows itself, even empty; anything else `-`. */
  function GetAgentName(agent: AgentRef): (r: string)
    ensures agent.AgentObject? && TruthyString(agent.fullName) ==> r == agent.fullName.value
    ensures agent.AgentText? ==> r == agent.text
    ensures agent.NoAgent? || (agent.AgentObject? && !TruthyString(agent.fullName)) ==> r == "-"
  {
    match agent
    case AgentObject(_, fullName) => if TruthyString(fullName) then fullName.value else "-"
    case AgentText(text) => text
    case NoAgent => "-"
  }

  /** `effectiveStatus || status` */
  function DisplayStatus(survey: Survey): (r: Option<string>)
    ensures TruthyString(survey.effectiveStatus) ==> r == survey.effectiveStatus
    ensures !TruthyString(survey.effectiveStatus) ==> r == survey.status
  {
    OrElse(survey.effectiveStatus, survey.status)
  }

  /** `displayStatus?.toLowerCase()` */
  function LoweredStatus(survey: Survey): Option<string> {
    match DisplayStatus(survey)
    case Some(s) => Some(ToLower(s))
    case None => None
  }

  datatype StatusColor = GreenBadge | GrayBadge | BlueBadge | RedBadge

  /** The badge colour, by the lower-cased status; gray for anything unknown. */
  function GetStatusColor(status: string): StatusColor {
    var s := ToLower(status);
    if s == "active" then GreenBadge
    else if s == "inactive" then GrayBadge
    else if s == "archived" then BlueBadge
    else if s == "terminated" then RedBadge
    else GrayBadge
  }

  lemma StatusColorIgnoresCase(status: string)
    ensures GetStatusColor(ToLower(status)) == GetStatusColor(status)
    ensures GetStatusColor("Archived") == BlueBadge && GetStatusColor("ACTIVE") == GreenBadge
  {
    ToLowerIdempotent(status);
    assert ToLower("Archived") == "archived";
    assert ToLower("ACTIVE") == "active";
  }

  /** JavaScript's `<`, `>`, `<=`, `>=` between a number and a possibly-NaN time. */
  predicate Before(now: int, t: Option<int>) { t.Some? && now < t.value }
  predicate After(now: int, t: Option<int>) { t.Some? && now > t.value }
  predicate NotBefore(now: int, t: Option<int>) { t.Some? && now >= t.value }
  predicate NotAfter(now: int, t: Option<int>) { t.Some? && now <= t.value }

  predicate TimesSet(survey: Survey) {
    TruthyString(survey.scheduledStartTime) && TruthyString(survey.scheduledEndTime)
  }

  /**
   * Whether an agent may start the survey now: never when archived or
   * terminated or without both times; always when active; when inactive
   * only inside the scheduled window, both ends included.
   */
  function CanStart(survey: Survey, now: int, toMillis: string -> Option<int>): (r: bool)
    ensures LoweredStatus(survey) == Some("archived") || LoweredStatus(survey) == Some("terminated") ==> !r
    ensures !TimesSet(survey) ==> !r
    ensures TimesSet(survey) && LoweredStatus(survey) == Some("active") ==> r
    ensures r ==> LoweredStatus(survey) == Some("active") || LoweredStatus(survey) == Some("inactive")
  {
    var status := LoweredStatus(survey);
    if status == Some("archived") || status == Some("terminated") then false
    else if !TimesSet(survey) then false
    else
      status == Some("active")
      || (status == Some("inactive")
          && NotBefore(now, toMillis(survey.scheduledStartTime.value))
          && NotAfter(now, toMillis(survey.scheduledEndTime.value)))
  }

  /** An inactive survey with valid times can start exactly inside its window. */
  lemma InactiveStartsInWindow(survey: Survey, now: int, toMillis: string -> Option<int>)
    requires TimesSet(survey) && LoweredStatus(survey) == Some("inactive")
    requires toMillis(survey.scheduledStartTime.value).Some? && toMillis(survey.scheduledEndTime.value).Some?
    ensures CanStart(survey, now, toMillis)
            <==> toMillis(survey.scheduledStartTime.value).value <= now <= toMillis(survey.scheduledEndTime.value).value
  {
  }

  /** An inactive survey whose time text is not a date can never start. */
  lemma InvalidTimeNeverStartsInactive(survey: Survey, now: int, toMillis: string -> Option<int>)
    requires TimesSet(survey) && LoweredStatus(survey) == Some("inactive")
    requires toMillis(survey.scheduledStartTime.value).None?
    ensures !CanStart(survey, now, toMillis)
  {
  }

  /** The reason on a disabled start button: the time checks come first, then the status. */
  function DisabledButtonMessage(survey: Survey, now: int, toMillis: string -> Option<int>): (key: string)
    ensures !TimesSet(survey) ==> key == "surveyTimeNotSet"
    ensures TimesSet(survey) && Before(now, toMillis(survey.scheduledStartTime.value)) ==> key == "waitingForStartTime"
    ensures (TimesSet(survey) && !Before(now, toMillis(survey.scheduledStartTime.value))
             && After(now, toMillis(survey.scheduledEndTime.value))) ==> key == "surveyTimeExpired"
  {
    if !TimesSet(survey) then "surveyTimeNotSet"
    else if Before(now, toMillis(survey.scheduledStartTime.value)) then "waitingForStartTime"
    else if After(now, toMillis(survey.scheduledEndTime.value)) then "surveyTimeExpired"
    else if LoweredStatus(survey) == Some("archived") then "surveyArchived"
    else if LoweredStatus(survey) == Some("terminated") then "surveyTerminated"
    else "cannotStart"
  }

  /** An archived survey in its window says so; outside it the time reason wins. */
  lemma StatusReasonOnlyInWindow(survey: Survey, now: int, toMillis: string -> Option<int>)
    requires TimesSet(survey) && LoweredStatus(survey) == Some("archived")
    ensures DisabledButtonMessage(survey, now, toMillis) == "surveyArchived"
            <==> !Before(now, toMillis(survey.scheduledStartTime.value)) && !After(now, toMillis(survey.scheduledEndTime.value))
  {
  }

  /** Which action button the card shows. */
  datatype ActionButton = EditButton | StartButton | DisabledButton(messageKey: string) | NoButton

  /** Admins edit; agents start or see why they cannot; everybody else gets nothing. */
  function RenderActionButton(survey: Survey, user: Option<UserDto>, now: int, toMillis: string -> Option<int>)
    : (r: ActionButton)
    ensures UserType.IsAdmin(user) <==> r == EditButton
    ensures UserType.IsAgent(user) ==> (r == StartButton <==> CanStart(survey, now, toMillis))
    ensures UserType.IsAgent(user) && !CanStart(survey, now, toMillis)
            ==> r == DisabledButton(DisabledButtonMessage(survey, now, toMillis))
    ensures !UserType.IsAdmin(user) && !UserType.IsAgent(user) ==> r == NoButton
  {
    if UserType.IsAdmin(user) then EditButton
    else if UserType.IsAgent(user) then
      if CanStart(survey, now, toMillis) then StartButton
      else DisabledButton(DisabledButtonMessage(survey, now, toMillis))
    else NoButton
  }

  /** A disabled button never blames the status of a survey that could start. */
  lemma DisabledReasonConsistent(survey: Survey, now: int, toMillis: string -> Option<int>)
    requires !CanStart(survey, now, toMillis)
    requires DisabledButtonMessage(survey, now, toMillis) == "cannotStart"
    ensures TimesSet(survey)
    ensures LoweredStatus(survey) != Some("active")
    ensures LoweredStatus(survey) == Some("inactive") ==>
              toMillis(survey.scheduledStartTime.value).None? || toMillis(survey.scheduledEndTime.value).None?
  {
  }
}
