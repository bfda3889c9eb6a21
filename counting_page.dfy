/**
 * The counting page an agent uses during a survey: five counters that never
 * go below zero, a countdown to the moment submitting opens (two minutes
 * before the scheduled end), and the submit flow with its guards and its
 * error classification.
 *
 * The clock is the `now` parameter of `Tick`; reading the stored survey is
 * the `stored` parameter of `LoadSurvey`; the submit endpoint's answer is
 * the `response` parameter of `HandleSubmit`. Reading a time text as a date
 * is `toMillis`; `None` stands for an invalid date.
 */
module CountingPage {
  import opened Common
  import opened DataModels

  datatype Vehicle = Motorcycle | Car | Truck | Bus | Pedestrian

  datatype Counts = Counts(motorcycle: int, car: int, truck: int, bus: int, pedestrian: int)

  const ZeroCounts := Counts(0, 0, 0, 0, 0)

  function CountOf(c: Counts, v: Vehicle): int {
    match v
    case Motorcycle => c.motorcycle
    case Car => c.car
    case Truck => c.truck
    case Bus => c.bus
    case Pedestrian => c.pedestrian
  }

  function WithCount(c: Counts, v: Vehicle, n: int): (r: Counts)
    ensures CountOf(r, v) == n
    ensures forall w :: w != v ==> CountOf(r, w) == CountOf(c, w)
  {
    match v
    case Motorcycle => c.(motorcycle := n)
    case Car => c.(car := n)
    case Truck => c.(truck := n)
    case Bus => c.(bus := n)
    case Pedestrian => c.(pedestrian := n)
  }

  predicate NonNegative(c: Counts) {
    forall v :: CountOf(c, v) >= 0
  }

  /** `updateCount`: the category moves by `delta` but not below zero; the others are kept. */
  function CountsAfterUpdate(c: Counts, v: Vehicle, delta: int): (r: Counts)
    ensures CountOf(r, v) == if CountOf(c, v) + delta < 0 then 0 else CountOf(c, v) + delta
    ensures forall w :: w != v ==> CountOf(r, w) == CountOf(c, w)
    ensures NonNegative(c) ==> NonNegative(r)
  {
    var n := CountOf(c, v) + delta;
    WithCount(c, v, if n < 0 then 0 else n)
  }

  /** A plus press is undone by a minus press, and a minus press at zero changes nothing. */
  lemma PlusThenMinus(c: Counts, v: Vehicle)
    requires NonNegative(c)
    ensures CountsAfterUpdate(CountsAfterUpdate(c, v, 1), v, -1) == c
    ensures CountOf(c, v) == 0 ==> CountsAfterUpdate(c, v, -1) == c
  {
  }

  /** The minus button is enabled only above zero. */
  predicate MinusEnabled(c: Counts, v: Vehicle) {
    CountOf(c, v) != 0
  }

  /** With counts never negative, the minus button is enabled exactly above zero, each press removes one, and a disabled press would change nothing. */
  lemma MinusEnabledAboveZero(c: Counts, v: Vehicle)
    requires NonNegative(c)
    ensures MinusEnabled(c, v) <==> CountOf(c, v) > 0
    ensures MinusEnabled(c, v) ==> CountOf(CountsAfterUpdate(c, v, -1), v) == CountOf(c, v) - 1
    ensures !MinusEnabled(c, v) ==> CountsAfterUpdate(c, v, -1) == c
  {
  }

  /** Submitting opens two minutes before the scheduled end. */
  const SubmitLeadMs := 2 * 60 * 1000

  /** `new Date(scheduledEndTime).getTime() - 120000`; a missing or invalid end stays invalid. */
  function SubmitAvailableTime(survey: Survey, toMillis: string -> Option<int>): (r: Option<int>)
    ensures survey.scheduledEndTime.None? ==> r.None?
    ensures survey.scheduledEndTime.Some? && toMillis(survey.scheduledEndTime.value).None? ==> r.None?
    ensures survey.scheduledEndTime.Some? && toMillis(survey.scheduledEndTime.value).Some? ==>
              r == Some(toMillis(survey.scheduledEndTime.value).value - 120000)
  {
    if survey.scheduledEndTime.None? then None
    else match toMillis(survey.scheduledEndTime.value)
      case None => None
      case Some(end) => Some(end - SubmitLeadMs)
  }

  /** The countdown effect starts an interval only for a truthy time: `null`, an invalid date and `0` start none. */
  predicate TimerRunning(submitAvailableTime: Option<int>) {
    submitAvailableTime.Some? && submitAvailableTime.value != 0
  }

  /** `Math.max(0, Math.floor((available - now) / 1000))`; Dafny's division by a positive number is this floor. */
  function RemainingSeconds(available: int, now: int): (r: nat)
    ensures now >= available ==> r == 0
    ensures now < available ==> r * 1000 <= available - now < (r + 1) * 1000
  {
    var t := (available - now) / 1000;
    if t < 0 then 0 else t
  }

  /** Minutes of the countdown. */
  function MinutesText(remaining: nat): string {
    IntToString(remaining / 60)
  }

  /** Seconds of the countdown, padded to two digits. */
  function SecondsText(remaining: nat): string {
    PadStart2(IntToString(remaining % 60))
  }

  /** The timer display: `00:00` once submitting is open, else minutes, a colon and the padded seconds. */
  function Countdown(canSubmit: bool, remaining: nat): (r: string)
    ensures canSubmit ==> r == "00:00"
    ensures !canSubmit ==> r == MinutesText(remaining) + ":" + SecondsText(remaining)
  {
    if canSubmit then "00:00" else IntToString(remaining / 60) + ":" + PadStart2(IntToString(remaining % 60))
  }

  lemma {:induction false} PaddedDigitValue(k: nat)
    requires k < 60
    ensures |PadStart2(IntToString(k))| == 2 && AllDigits(PadStart2(IntToString(k)))
    ensures DigitsValue(PadStart2(IntToString(k))) == k
  {
    DigitsValueOfNatToString(k);
    var s := NatToString(k);
    if k < 10 {
      assert s == [DigitChar(k)];
      var p := PadStart2(s);
      assert p == "0" + s;
      assert p[..1] == "0";
    } else {
      assert NatToString(k / 10) == [DigitChar(k / 10)];
    }
  }

  /** The countdown reads back as the remaining seconds: minutes times sixty plus two-digit seconds. */
  lemma CountdownReadsBack(remaining: nat)
    ensures |SecondsText(remaining)| == 2
    ensures ParseInt(MinutesText(remaining)) == Some(remaining / 60)
    ensures ParseInt(SecondsText(remaining)) == Some(remaining % 60)
    ensures remaining == (remaining / 60) * 60 + remaining % 60
  {
    ParseIntOfIntToString(remaining / 60);
    PaddedDigitValue(remaining % 60);
    ParseIntOfDigits(SecondsText(remaining));
  }

  /** In the last second before opening the display shows `0:00`, not `00:00`, and submitting is still closed. */
  lemma LastSecondStillLocked(available: int, now: int)
    requires available - 1000 < now < available
    ensures RemainingSeconds(available, now) == 0
    ensures Countdown(now >= available, RemainingSeconds(available, now)) == "0:00"
  {
    assert IntToString(0) == "0";
    assert PadStart2("0") == "00";
  }

  /** What loading the page found in session storage; parsing the JSON text is not modelled. */
  datatype StoredSurvey = NothingStored | Unparseable | Parsed(survey: Survey)

  datatype LoadAction = ForceLogoutOnLoad(reason: string) | GoToSurveys | ShowSurvey

  /** The submit endpoint's answer, or what it threw; `message` is the error's message, if it has one. */
  datatype SubmitResponse = Answered(error: bool, message: Option<string>) | Threw(thrown: Option<string>)

  datatype CountingRequest = CountingRequest(surveyId: string, counts: Counts, countingPost: string)

  /** What a submit press ends with. */
  datatype SubmitEffect =
    | Ignored
    | SubmittedAndLeft
    | ForceLogoutAfterSubmit(reason: string)
    | PermissionAlert
    | FailureAlert

  /** `survey.id || survey._id` */
  function SurveyIdOf(survey: Survey): Option<string> {
    OrElse(survey.id, survey.mongoId)
  }

  /** `user.countingPost || 'start'` */
  function CountingPostOf(countingPostField: Option<string>): (r: string)
    ensures r != ""
  {
    TruthyOr(countingPostField, "start")
  }

  /** The error branches, in order: session errors, then permission, then the generic failure. */
  function Classify(message: Option<string>): (r: SubmitEffect)
    ensures r != Ignored && r != SubmittedAndLeft
    ensures r.ForceLogoutAfterSubmit? <==>
              message.Some? && (Contains(message.value, "Invalid login token") || Contains(message.value, "Access denied"))
    ensures r == PermissionAlert <==>
              message.Some? && !Contains(message.value, "Invalid login token") && !Contains(message.value, "Access denied")
              && Contains(message.value, "permission")
  {
    if message.Some? && (Contains(message.value, "Invalid login token") || Contains(message.value, "Access denied")) then
      ForceLogoutAfterSubmit("Your session has expired. Please log in again.")
    else if message.Some? && Contains(message.value, "permission") then PermissionAlert
    else FailureAlert
  }

  /** The message of the error a failed answer turns into: `new Error(undefined)` has an empty message. */
  function AnsweredErrorMessage(message: Option<string>): string {
    NullishOr(message, "")
  }

  /** The outcome of a submit that reached the endpoint. */
  function OutcomeOf(response: SubmitResponse): (r: SubmitEffect)
    ensures response.Answered? && !response.error ==> r == SubmittedAndLeft
    ensures response.Answered? && response.error ==> r == Classify(Some(AnsweredErrorMessage(response.message)))
    ensures response.Threw? ==> r == Classify(response.thrown)
  {
    match response
    case Answered(error, message) => if error then Classify(Some(AnsweredErrorMessage(message))) else SubmittedAndLeft
    case Threw(thrown) => Classify(thrown)
  }

  /** A survey without an id fails with the generic message, never logging out or blaming permissions. */
  lemma MissingIdIsGenericFailure()
    ensures Classify(Some("Survey ID not found")) == FailureAlert
  {
    var m := "Survey ID not found";
    assert "Invalid login token"[8] == 'l' && "Access denied"[0] == 'A' && "permission"[0] == 'p';
    assert forall k :: 0 <= k < |m| ==> m[k] != 'l' && m[k] != 'A' && m[k] != 'p';
    NotContainsMissingChar(m, "Invalid login token", 8);
    NotContainsMissingChar(m, "Access denied", 0);
    NotContainsMissingChar(m, "permission", 0);
  }

  /** A session error wins over a permission error in the same message. */
  lemma SessionErrorWins(message: string)
    requires Contains(message, "Access denied") && Contains(message, "permission")
    ensures Classify(Some(message)).ForceLogoutAfterSubmit?
  {
  }

  class Counting {
    var survey: Option<Survey>
    var counts: Counts
    var isSubmitting: bool
    var remainingTime: nat
    var canSubmit: bool
    var submitAvailableTime: Option<int>

    /** The page opens with nothing loaded, every count 0 and submitting closed. */
    constructor ()
      ensures survey.None? && counts == ZeroCounts && !isSubmitting
      ensures remainingTime == 0 && !canSubmit && submitAvailableTime.None?
    {
      survey := None;
      counts := ZeroCounts;
      isSubmitting := false;
      remainingTime := 0;
      canSubmit := false;
      submitAvailableTime := None;
    }

    /** The submit button is enabled only while not submitting and once submitting is open. */
    predicate SubmitEnabled()
      reads this
    {
      !isSubmitting && canSubmit
    }

    /**
     * The load effect: a signed-out visitor is logged out; nothing stored or
     * a text that is not JSON goes back to the survey list; a survey is
     * shown with its submit time.
     */
    method LoadSurvey(authenticated: bool, stored: StoredSurvey, toMillis: string -> Option<int>) returns (action: LoadAction)
      modifies this
      ensures !authenticated ==>
                action == ForceLogoutOnLoad("You must be logged in to access the counting page.")
                && survey == old(survey) && submitAvailableTime == old(submitAvailableTime)
      ensures authenticated && !stored.Parsed? ==>
                action == GoToSurveys && survey == old(survey) && submitAvailableTime == old(submitAvailableTime)
      ensures authenticated && stored.Parsed? ==>
                action == ShowSurvey && survey == Some(stored.survey)
                && submitAvailableTime == SubmitAvailableTime(stored.survey, toMillis)
      ensures counts == old(counts) && isSubmitting == old(isSubmitting)
      ensures remainingTime == old(remainingTime) && canSubmit == old(canSubmit)
    {
      if !authenticated {
        return ForceLogoutOnLoad("You must be logged in to access the counting page.");
      }
      if stored.Parsed? {
        survey := Some(stored.survey);
        submitAvailableTime := SubmitAvailableTime(stored.survey, toMillis);
        action := ShowSurvey;
      } else {
        action := GoToSurveys;
      }
    }

    /** One firing of the countdown interval; there is none while the submit time is falsy. */
    method Tick(now: int)
      modifies this
      ensures TimerRunning(old(submitAvailableTime)) ==>
                remainingTime == RemainingSeconds(old(submitAvailableTime).value, now)
                && (canSubmit <==> now >= old(submitAvailableTime).value)
      ensures !TimerRunning(old(submitAvailableTime)) ==>
                remainingTime == old(remainingTime) && canSubmit == old(canSubmit)
      ensures canSubmit && TimerRunning(old(submitAvailableTime)) ==> Countdown(canSubmit, remainingTime) == "00:00" && remainingTime == 0
      ensures survey == old(survey) && counts == old(counts) && isSubmitting == old(isSubmitting)
      ensures submitAvailableTime == old(submitAvailableTime)
    {
      if submitAvailableTime.Some? && submitAvailableTime.value != 0 {
        var available := submitAvailableTime.value;
        var t := (available - now) / 1000;
        remainingTime := if t < 0 then 0 else t;
        canSubmit := now >= available;
      }
    }

    /** A counter button press. */
    method UpdateCount(v: Vehicle, delta: int)
      modifies this
      ensures counts == CountsAfterUpdate(old(counts), v, delta)
      ensures NonNegative(old(counts)) ==> NonNegative(counts)
      ensures survey == old(survey) && isSubmitting == old(isSubmitting)
      ensures remainingTime == old(remainingTime) && canSubmit == old(canSubmit)
      ensures submitAvailableTime == old(submitAvailableTime)
    {
      var n := CountOf(counts, v) + delta;
      counts := WithCount(counts, v, if n < 0 then 0 else n);
    }

    /**
     * `handleSubmit`: nothing without a survey or a user. Otherwise the
     * request carries the survey's id, the counts and the counting post;
     * without an id nothing is sent and the generic failure is shown. The
     * submitting flag is cleared however it ends.
     */
    method HandleSubmit(user: Option<UserDto>, countingPostField: Option<string>, response: SubmitResponse)
      returns (sent: Option<CountingRequest>, effect: SubmitEffect)
      modifies this
      ensures survey.None? || user.None? ==> sent.None? && effect == Ignored && isSubmitting == old(isSubmitting)
      ensures survey.Some? && user.Some? && !TruthyString(SurveyIdOf(survey.value)) ==>
                sent.None? && effect == FailureAlert && !isSubmitting
      ensures survey.Some? && user.Some? && TruthyString(SurveyIdOf(survey.value)) ==>
                sent == Some(CountingRequest(SurveyIdOf(survey.value).value, counts, CountingPostOf(countingPostField)))
                && effect == OutcomeOf(response) && !isSubmitting
      ensures survey == old(survey) && counts == old(counts)
      ensures remainingTime == old(remainingTime) && canSubmit == old(canSubmit)
      ensures submitAvailableTime == old(submitAvailableTime)
    {
      if survey.None? || user.None? {
        return None, Ignored;
      }
      isSubmitting := true;
      var countingPost := TruthyOr(countingPostField, "start");
      var surveyId := OrElse(survey.value.id, survey.value.mongoId);
      if !TruthyString(surveyId) {
        sent, effect := None, FailureAlert;
      } else {
        sent := Some(CountingRequest(surveyId.value, counts, countingPost));
        effect := OutcomeOf(response);
      }
      isSubmitting := false;
    }
  }
}
