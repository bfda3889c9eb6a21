/**
 * The "create survey" modal: a form of seven text fields that starts empty,
 * is valid once the name, both points and both times are filled in, is
 * emptied again when the modal is closed, and loads the agent list each
 * time the modal opens.
 */
module CreateSurveyModal {
  import opened Common
  import SurveyApi

  datatype Field = Name | StartPoint | EndPoint | ScheduledStartTime | ScheduledEndTime | StartPointAgent | EndPointAgent

  datatype CreateForm = CreateForm(
    name: string,
    startPoint: string,
    endPoint: string,
    scheduledStartTime: string,
    scheduledEndTime: string,
    startPointAgent: string,
    endPointAgent: string)

  const EmptyForm := CreateForm("", "", "", "", "", "", "")

  function FieldValue(f: CreateForm, field: Field): string {
    match field
    case Name => f.name
    case StartPoint => f.startPoint
    case EndPoint => f.endPoint
    case ScheduledStartTime => f.scheduledStartTime
    case ScheduledEndTime => f.scheduledEndTime
    case StartPointAgent => f.startPointAgent
    case EndPointAgent => f.endPointAgent
  }

  /** `handleInputChange`: `{...prev, [field]: value}`. */
  function WithField(f: CreateForm, field: Field, value: string): (r: CreateForm)
    ensures FieldValue(r, field) == value
    ensures forall other :: other != field ==> FieldValue(r, other) == FieldValue(f, other)
  {
    match field
    case Name => f.(name := value)
    case StartPoint => f.(startPoint := value)
    case EndPoint => f.(endPoint := value)
    case ScheduledStartTime => f.(scheduledStartTime := value)
    case ScheduledEndTime => f.(scheduledEndTime := value)
    case StartPointAgent => f.(startPointAgent := value)
    case EndPointAgent => f.(endPointAgent := value)
  }

  /** `isFormValid`: the texts must be non-empty after trimming, the times only non-empty. */
  predicate IsFormValid(f: CreateForm) {
    Trim(f.name) != "" && Trim(f.startPoint) != "" && Trim(f.endPoint) != ""
    && f.scheduledStartTime != "" && f.scheduledEndTime != ""
  }

  predicate HasVisibleChar(s: string) {
    exists i :: 0 <= i < |s| && !IsJsWhitespace(s[i])
  }

  /** Valid exactly when each text has a visible character and each time any character; agents play no part. */
  lemma IsFormValidIff(f: CreateForm, a: string, b: string)
    ensures IsFormValid(f) <==> (HasVisibleChar(f.name) && HasVisibleChar(f.startPoint) && HasVisibleChar(f.endPoint)
                                 && f.scheduledStartTime != "" && f.scheduledEndTime != "")
    ensures IsFormValid(f) <==> IsFormValid(f.(startPointAgent := a, endPointAgent := b))
    ensures !IsFormValid(EmptyForm)
  {
    TrimNonEmptyIff(f.name);
    TrimNonEmptyIff(f.startPoint);
    TrimNonEmptyIff(f.endPoint);
  }

  /** A name of spaces alone is refused, while a time of one space passes. */
  lemma SpacesOnlyInTimes(f: CreateForm)
    requires IsFormValid(f)
    ensures !IsFormValid(f.(name := "  "))
    ensures IsFormValid(f.(scheduledEndTime := " "))
  {
    TrimNonEmptyIff("  ");
  }

  /** An entry of the agent list. */
  datatype AgentOption = AgentOption(id: string, fullName: string, email: string)

  /** What `results.docs` held in the agents response. */
  datatype AgentDocs = DocsMissing | DocsNotArray | DocsArray(items: seq<AgentOption>)

  datatype AgentsResponse = AgentsAnswered(docs: AgentDocs) | AgentsThrew

  /** The agent list after a fetch: the docs when they are an array, else empty. */
  function AgentsAfterFetch(response: AgentsResponse): (r: seq<AgentOption>)
    ensures response.AgentsAnswered? && response.docs.DocsArray? ==> r == response.docs.items
    ensures !(response.AgentsAnswered? && response.docs.DocsArray?) ==> r == []
  {
    if response.AgentsAnswered? && response.docs.DocsArray? then response.docs.items else []
  }

  class Modal {
    var loading: bool
    var agents: seq<AgentOption>
    var formData: CreateForm

    /** Every field starts empty, with no agents and nothing loading. */
    constructor ()
      ensures !loading && agents == [] && formData == EmptyForm
    {
      loading := false;
      agents := [];
      formData := EmptyForm;
    }

    /** The submit button: disabled while the form is invalid or loading. */
    function SubmitEnabled(): (r: bool)
      reads this
      ensures r <==> !loading && HasVisibleChar(formData.name) && HasVisibleChar(formData.startPoint)
                     && HasVisibleChar(formData.endPoint)
                     && formData.scheduledStartTime != "" && formData.scheduledEndTime != ""
    {
      IsFormValidIff(formData, "", "");
      IsFormValid(formData) && !loading
    }

    /** The effect on `isOpen`: opening fetches the agents; closing keeps the list. */
    method IsOpenChanged(isOpen: bool, response: AgentsResponse)
      modifies this
      ensures isOpen ==> agents == AgentsAfterFetch(response)
      ensures !isOpen ==> agents == old(agents)
      ensures loading == old(loading) && formData == old(formData)
    {
      if isOpen {
        agents := AgentsAfterFetch(response);
      }
    }

    method HandleInputChange(field: Field, value: string)
      modifies this
      ensures formData == WithField(old(formData), field, value)
      ensures loading == old(loading) && agents == old(agents)
    {
      formData := WithField(formData, field, value);
    }

    /** The start of `handleSubmit`: `createSurvey(formData)` with the form as it is. */
    method BeginSubmit() returns (call: HttpCall, body: CreateForm)
      modifies this
      ensures call == SurveyApi.CreateSurvey() && body == old(formData)
      ensures loading && formData == old(formData) && agents == old(agents)
    {
      loading := true;
      call := SurveyApi.CreateSurvey();
      body := formData;
    }

    /** The end of `handleSubmit`: `onComplete` only on success; loading ends either way. The form is not reset. */
    method FinishSubmit(succeeded: bool) returns (completed: bool)
      modifies this
      ensures completed == succeeded
      ensures !loading && formData == old(formData) && agents == old(agents)
    {
      completed := succeeded;
      loading := false;
    }

    /** `handleClose`: ignored while submitting; otherwise the form is emptied and the parent closes the modal. */
    method HandleClose() returns (closeRequested: bool)
      modifies this
      ensures closeRequested <==> !old(loading)
      ensures !old(loading) ==> formData == EmptyForm
      ensures old(loading) ==> formData == old(formData)
      ensures loading == old(loading) && agents == old(agents)
    {
      closeRequested := !loading;
      if !loading {
        formData := EmptyForm;
      }
    }
  }
}
