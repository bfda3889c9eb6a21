/**
 * The "edit survey" modal: a form copied from the survey (agents reduced to
 * their ids), re-copied whenever the survey changes, edited field by field,
 * and kept as it is when the modal closes. Unlike the create form, a field
 * the survey lacks is `undefined`, and the validity test lets it through.
 */
module EditSurveyModal {
  import opened Common
  import opened DataModels
  import SurveyApi
  import CreateSurveyModal

  datatype EditForm = EditForm(
    id: Option<string>,
    name: Option<string>,
    startPoint: Option<string>,
    endPoint: Option<string>,
    scheduledStartTime: Option<string>,
    scheduledEndTime: Option<string>,
    startPointAgent: Option<string>,
    endPointAgent: Option<string>,
    status: Option<string>)

  /** `typeof agent === 'object' ? agent.id : agent || ''`: an object gives its id, text itself, nothing `''`. */
  function AgentFormValue(agent: AgentRef): (r: Option<string>)
    ensures agent.AgentObject? ==> r == agent.id
    ensures agent.AgentText? ==> r == Some(agent.text)
    ensures agent.NoAgent? ==> r == Some("")
  {
    match agent
    case AgentObject(id, _) => id
    case AgentText(text) => Some(text)
    case NoAgent => Some("")
  }

  /** The form a survey gives: its fields as they are, its agents as ids. */
  function FormOf(survey: Survey): EditForm {
    EditForm(survey.id, survey.name, survey.startPoint, survey.endPoint,
             survey.scheduledStartTime, survey.scheduledEndTime,
             AgentFormValue(survey.startPointAgent), AgentFormValue(survey.endPointAgent), survey.status)
  }

  /** `value?.trim() !== ''`: `undefined` passes. */
  predicate TrimmedNotEmpty(value: Option<string>) {
    value.None? || Trim(value.value) != ""
  }

  /** `isFormValid` */
  predicate IsFormValid(f: EditForm) {
    TrimmedNotEmpty(f.name) && TrimmedNotEmpty(f.startPoint) && TrimmedNotEmpty(f.endPoint)
    && f.scheduledStartTime != Some("") && f.scheduledEndTime != Some("")
  }

  /** A survey lacking every text and time gives a valid form; emptying a text field makes it invalid. */
  lemma MissingFieldsPass(survey: Survey)
    requires survey.name.None? && survey.startPoint.None? && survey.endPoint.None?
    requires survey.scheduledStartTime.None? && survey.scheduledEndTime.None?
    ensures IsFormValid(FormOf(survey))
    ensures !IsFormValid(FormOf(survey).(name := Some("")))
  {
  }

  /** The edit form accepts what the create form would accept, field for field. */
  lemma CreateValidImpliesEditValid(c: CreateSurveyModal.CreateForm, id: Option<string>, status: Option<string>)
    requires CreateSurveyModal.IsFormValid(c)
    ensures IsFormValid(EditForm(id, Some(c.name), Some(c.startPoint), Some(c.endPoint),
                                  Some(c.scheduledStartTime), Some(c.scheduledEndTime),
                                  Some(c.startPointAgent), Some(c.endPointAgent), status))
  {
  }

  class Modal {
    var loading: bool
    var formData: EditForm

    /** The form starts as the survey's copy. */
    constructor (survey: Survey)
      ensures !loading && formData == FormOf(survey)
    {
      loading := false;
      formData := FormOf(survey);
    }

    /** The submit button: disabled while the form is invalid or loading. */
    function SubmitEnabled(): (r: bool)
      reads this
      ensures r <==> !loading
                     && (formData.name.Some? ==> Trim(formData.name.value) != "")
                     && (formData.startPoint.Some? ==> Trim(formData.startPoint.value) != "")
                     && (formData.endPoint.Some? ==> Trim(formData.endPoint.value) != "")
                     && formData.scheduledStartTime != Some("") && formData.scheduledEndTime != Some("")
    {
      IsFormValid(formData) && !loading
    }

    /** The effect on `survey`: edits made so far are replaced by the new survey's copy. */
    method SurveyChanged(survey: Survey)
      modifies this
      ensures formData == FormOf(survey) && loading == old(loading)
    {
      formData := EditForm(survey.id, survey.name, survey.startPoint, survey.endPoint,
                           survey.scheduledStartTime, survey.scheduledEndTime,
                           AgentFormValue(survey.startPointAgent), AgentFormValue(survey.endPointAgent), survey.status);
    }

    /** `handleInputChange` for each text control; the id is only ever copied, and the status has its own select. */
    method HandleInputChange(field: CreateSurveyModal.Field, value: string)
      modifies this
      ensures field == CreateSurveyModal.Name ==> formData == old(formData).(name := Some(value))
      ensures field == CreateSurveyModal.StartPoint ==> formData == old(formData).(startPoint := Some(value))
      ensures field == CreateSurveyModal.EndPoint ==> formData == old(formData).(endPoint := Some(value))
      ensures field == CreateSurveyModal.ScheduledStartTime ==> formData == old(formData).(scheduledStartTime := Some(value))
      ensures field == CreateSurveyModal.ScheduledEndTime ==> formData == old(formData).(scheduledEndTime := Some(value))
      ensures field == CreateSurveyModal.StartPointAgent ==> formData == old(formData).(startPointAgent := Some(value))
      ensures field == CreateSurveyModal.EndPointAgent ==> formData == old(formData).(endPointAgent := Some(value))
      ensures formData.id == old(formData).id && formData.status == old(formData).status
      ensures loading == old(loading)
    {
      match field
      case Name => formData := formData.(name := Some(value));
      case StartPoint => formData := formData.(startPoint := Some(value));
      case EndPoint => formData := formData.(endPoint := Some(value));
      case ScheduledStartTime => formData := formData.(scheduledStartTime := Some(value));
      case ScheduledEndTime => formData := formData.(scheduledEndTime := Some(value));
      case StartPointAgent => formData := formData.(startPointAgent := Some(value));
      case EndPointAgent => formData := formData.(endPointAgent := Some(value));
    }

    /** `handleInputChange('status', …)` from the status select: only the status changes. */
    method HandleStatusChange(value: string)
      modifies this
      ensures formData == old(formData).(status := Some(value))
      ensures loading == old(loading)
    {
      formData := formData.(status := Some(value));
    }

    /** The start of `handleSubmit`: `updateSurvey(formData)`, whose path carries the form's id. */
    method BeginSubmit() returns (call: HttpCall, body: EditForm)
      modifies this
      ensures call == SurveyApi.UpdateSurvey(old(formData).id) && body == old(formData)
      ensures loading && formData == old(formData)
    {
      loading := true;
      call := SurveyApi.UpdateSurvey(formData.id);
      body := formData;
    }

    method FinishSubmit(succeeded: bool) returns (completed: bool)
      modifies this
      ensures completed == succeeded
      ensures !loading && formData == old(formData)
    {
      completed := succeeded;
      loading := false;
    }

    /** `handleClose`: ignored while submitting; the form is never reset. */
    method HandleClose() returns (closeRequested: bool)
      modifies this
      ensures closeRequested <==> !old(loading)
      ensures formData == old(formData) && loading == old(loading)
    {
      closeRequested := !loading;
    }
  }
}
