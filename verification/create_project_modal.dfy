/**
 * `CreateProjectModal`: the new-project form, its own validator (which stops
 * at the first failing check), the payload it inserts, and the message shown
 * when the insert fails. The insert itself is a parameter: its reply is
 * passed to `FinishSubmit`.
 */
module CreateProjectModal {
  import opened Outcomes
  import opened Text
  import opened Numbers
  import opened IsoDate
  import ProjectUtils

  /** The form's fields, all strings as the inputs hold them. */
  datatype FormData = FormData(
    name: string,
    description: string,
    priority: string,
    status: string,
    start_date: string,
    end_date: string,
    budget: string,
    color: string)

  /** The names `handleInputChange` is called with. */
  datatype FormField = NameField | DescriptionField | PriorityField | StatusField
                     | StartDateField | EndDateField | BudgetField | ColorField

  /** The value of one field. */
  function Get(f: FormData, field: FormField): string {
    match field
    case NameField => f.name
    case DescriptionField => f.description
    case PriorityField => f.priority
    case StatusField => f.status
    case StartDateField => f.start_date
    case EndDateField => f.end_date
    case BudgetField => f.budget
    case ColorField => f.color
  }

  /** `{ ...prev, [field]: value }`. */
  function With(f: FormData, field: FormField, value: string): (g: FormData)
    ensures Get(g, field) == value
  {
    match field
    case NameField => f.(name := value)
    case DescriptionField => f.(description := value)
    case PriorityField => f.(priority := value)
    case StatusField => f.(status := value)
    case StartDateField => f.(start_date := value)
    case EndDateField => f.(end_date := value)
    case BudgetField => f.(budget := value)
    case ColorField => f.(color := value)
  }

  /** Setting a field changes that field and no other. */
  lemma WithChangesOneField(f: FormData, field: FormField, value: string, other: FormField)
    ensures Get(With(f, field, value), other) == if other == field then value else Get(f, other)
  {
  }

  /** Setting a field to the value it already has changes nothing. */
  lemma WithSameValue(f: FormData, field: FormField)
    ensures With(f, field, Get(f, field)) == f
  {
  }

  /** The empty form, and what `resetForm` restores. */
  const DefaultForm: FormData := FormData("", "", "medium", "planning", "", "", "", "#3B82F6")

  /** The defaults agree with the service's whitelist and fallback colour. */
  lemma DefaultFormIsSanitized()
    ensures DefaultForm.status in ProjectUtils.ProjectStatuses
    ensures DefaultForm.priority in ProjectUtils.ProjectPriorities
    ensures DefaultForm.color == ProjectUtils.DefaultColor
  {
  }

  // ---------------------------------------------------------------------
  // validateForm
  // ---------------------------------------------------------------------

  /** The three complaints of `validateForm`, in the order it checks. */
  datatype FormError = NameRequired | DatesOutOfOrder | BudgetNotANumber {
    function Message(): string {
      match this
      case NameRequired => "Project name is required."
      case DatesOutOfOrder => "End date must be after start date."
      case BudgetNotANumber => "Budget must be a valid number."
    }
  }

  /** `!name.trim()`: the name is blank. */
  predicate NameMissing(f: FormData) {
    Trim(f.name) == ""
  }

  /** Both dates filled in and `new Date(start) > new Date(end)`. */
  predicate DatesReversed(f: FormData) {
    f.start_date != "" && f.end_date != "" && DateLess(f.end_date, f.start_date)
  }

  /** A filled-in budget with no number at its front. */
  predicate BudgetUnparsable(f: FormData) {
    f.budget != "" && ParseFloat(f.budget).NaN?
  }

  /** The complaints for the outcomes of the three checks, in check order. */
  function Complaints(nameMissing: bool, datesReversed: bool, budgetUnparsable: bool): (r: seq<FormError>)
    ensures NameRequired in r <==> nameMissing
    ensures DatesOutOfOrder in r <==> datesReversed
    ensures BudgetNotANumber in r <==> budgetUnparsable
  {
    (if nameMissing then [NameRequired] else [])
    + (if datesReversed then [DatesOutOfOrder] else [])
    + (if budgetUnparsable then [BudgetNotANumber] else [])
  }

  /** Every check that fails on `f`, in the order `validateForm` runs them. */
  function FormFailures(f: FormData): (r: seq<FormError>)
    ensures NameRequired in r <==> NameMissing(f)
    ensures DatesOutOfOrder in r <==> DatesReversed(f)
    ensures BudgetNotANumber in r <==> BudgetUnparsable(f)
  {
    Complaints(NameMissing(f), DatesReversed(f), BudgetUnparsable(f))
  }

  /**
   * `validateForm`: returns at the first failing check, so it reports the first
   * of the failures and never more than one; None means the form is valid.
   */
  function ValidateForm(f: FormData): (r: Option<FormError>)
    ensures r.None? <==> FormFailures(f) == []
    ensures r.Some? ==> r.value == FormFailures(f)[0]
  {
    if NameMissing(f) then Some(NameRequired)
    else if DatesReversed(f) then Some(DatesOutOfOrder)
    else if BudgetUnparsable(f) then Some(BudgetNotANumber)
    else None
  }

  /** A blank name hides any other complaint. */
  lemma NameCheckedFirst(f: FormData)
    requires NameMissing(f)
    ensures ValidateForm(f) == Some(NameRequired)
    ensures |FormFailures(f)| >= 1
  {
  }

  /** A same-day range, or a range with a date left empty, never fails the date check. */
  lemma FormSameDayAccepted(f: FormData)
    ensures f.start_date == f.end_date ==> !DatesReversed(f)
    ensures f.start_date == "" || f.end_date == "" ==> !DatesReversed(f)
  {
  }

  // ---------------------------------------------------------------------
  // the insert payload
  // ---------------------------------------------------------------------

  /** The `projectData` object handed to the insert. */
  datatype ProjectPayload = ProjectPayload(
    name: string,
    description: Option<string>,
    priority: string,
    status: string,
    start_date: Option<string>,
    end_date: Option<string>,
    budget: Option<JsNumber>,
    color: string,
    owner_id: string,
    progress: int)

  /** `s || null` for a form string. */
  function OrNull(s: string): (r: Option<string>)
    ensures r.None? <==> s == ""
    ensures r.Some? ==> r.value == s
  {
    if s == "" then None else Some(s)
  }

  /** The payload built from the form for the profile `ownerId`. */
  function Payload(f: FormData, ownerId: string): (p: ProjectPayload)
    ensures p.name == Trim(f.name) && p.owner_id == ownerId && p.progress == 0
    ensures p.description == OrNull(Trim(f.description))
    ensures p.priority == f.priority && p.status == f.status && p.color == f.color
    ensures p.start_date == OrNull(f.start_date) && p.end_date == OrNull(f.end_date)
    ensures p.budget.None? <==> f.budget == ""
    ensures p.budget.Some? ==> p.budget.value == ParseFloat(f.budget)
  {
    ProjectPayload(
      Trim(f.name),
      OrNull(Trim(f.description)),
      f.priority,
      f.status,
      OrNull(f.start_date),
      OrNull(f.end_date),
      if f.budget != "" then Some(ParseFloat(f.budget)) else None,
      f.color,
      ownerId,
      0)
  }

  /**
   * The payload of an accepted form has a non-blank trimmed name, a budget that
   * is a number when there is one, and dates in order.
   */
  lemma AcceptedPayload(f: FormData, ownerId: string)
    requires ValidateForm(f).None?
    ensures var p := Payload(f, ownerId);
      && p.name != "" && !IsSpace(p.name[0]) && !IsSpace(p.name[|p.name| - 1])
      && (p.budget.Some? ==> p.budget.value.Finite?)
      && !(p.start_date.Some? && p.end_date.Some? && DateLess(p.end_date.value, p.start_date.value))
  {
    assert NameRequired !in FormFailures(f);
    assert BudgetNotANumber !in FormFailures(f);
    assert DatesOutOfOrder !in FormFailures(f);
  }

  /** The payload, read by the service's validator and sanitiser. */
  function AsProjectData(p: ProjectPayload): ProjectUtils.ProjectData {
    ProjectUtils.ProjectData(
      Some(p.name), p.description, Some(p.status), Some(p.priority),
      Num(Finite(p.progress as real)),
      match p.budget { case None => Null case Some(n) => Num(n) },
      p.start_date, p.end_date, Some(p.color))
  }

  /** On the same dates the form's check and the service's check agree. */
  lemma DateChecksAgree(f: FormData, ownerId: string)
    ensures DatesReversed(f) <==> ProjectUtils.EndIsBeforeStart(AsProjectData(Payload(f, ownerId)))
  {
  }

  /**
   * The form accepts a name of one or two characters that the service rejects
   * as too short.
   */
  lemma ShortNameAcceptedByFormOnly(f: FormData, ownerId: string)
    requires Trim(f.name) != "" && |Trim(f.name)| < 3
    ensures NameRequired !in FormFailures(f)
    ensures ProjectUtils.NameTooShort in ProjectUtils.FailedChecks(AsProjectData(Payload(f, ownerId)))
  {
    TrimIdempotent(f.name);
    ProjectUtils.FailedChecksSpec(AsProjectData(Payload(f, ownerId)));
  }

  /**
   * A negative budget passes the form, is sent as it is, is rejected by the
   * service's validator and is turned into 0 by its sanitiser.
   */
  lemma NegativeBudgetAcceptedByForm(f: FormData, ownerId: string, v: real)
    requires f.budget != "" && ParseFloat(f.budget) == Finite(v) && v < 0.0
    ensures BudgetNotANumber !in FormFailures(f)
    ensures Payload(f, ownerId).budget == Some(Finite(v))
    ensures ProjectUtils.BadBudget in ProjectUtils.FailedChecks(AsProjectData(Payload(f, ownerId)))
    ensures ProjectUtils.SanitizeProjectData(AsProjectData(Payload(f, ownerId))).budget == Some(Finite(0.0))
  {
    ProjectUtils.NegativeBudgetClash(AsProjectData(Payload(f, ownerId)), v);
  }

  // ---------------------------------------------------------------------
  // the failure message
  // ---------------------------------------------------------------------

  const DefaultFailure: string := "An unexpected error occurred while creating the project."
  const PermissionFailure: string := "You don't have permission to create projects. Please contact your administrator."
  const PolicyFailure: string := "Security policy violation. Please ensure you have the correct permissions."

  /** The message shown for a failed insert whose error carries `message` (None when it has none). */
  function CreateErrorMessage(message: Option<string>): (r: string)
    ensures r != ""
    ensures message.Some? && Includes(message.value, "permission denied") ==> r == PermissionFailure
    ensures message.Some? ==>
      (!Includes(message.value, "permission denied") && Includes(message.value, "violates row-level security")
       ==> r == PolicyFailure)
    ensures r !in {PermissionFailure, PolicyFailure, DefaultFailure} ==> message == Some(r)
    ensures message.None? || message == Some("") ==> r == DefaultFailure
    ensures message.Some? && message.value != "" ==>
      (!Includes(message.value, "permission denied") && !Includes(message.value, "violates row-level security")
       ==> r == message.value)
  {
    match message
    case None => DefaultFailure
    case Some(m) =>
      if Includes(m, "permission denied") then PermissionFailure
      else if Includes(m, "violates row-level security") then PolicyFailure
      else if m != "" then m
      else DefaultFailure
  }

  /** A toast: title, description, and whether it is shown as an error. */
  datatype Notice = Notice(title: string, description: string, destructive: bool)

  function ValidationNotice(e: FormError): Notice {
    Notice("Validation Error", e.Message(), true)
  }

  const LoginRequired: Notice := Notice("Authentication Error", "You must be logged in to create a project.", true)

  function CreatedNotice(name: string): Notice {
    Notice("Success", "Project \"" + name + "\" created successfully!", false)
  }

  /** What the synchronous part of a submit produces: a notice to show, or the payload to insert. */
  datatype SubmitStart = SubmitStart(notice: Option<Notice>, payload: Option<ProjectPayload>)

  /**
   * The synchronous part of `handleSubmit`: without a user and a profile it
   * stops with a notice; otherwise an invalid form stops with the first
   * complaint; otherwise the payload for the profile goes to the insert.
   */
  function StartSubmit(signedIn: bool, profileId: Option<string>, f: FormData): (r: SubmitStart)
    ensures r.notice.Some? <==> r.payload.None?
    ensures !signedIn || profileId.None? ==> r.notice == Some(LoginRequired)
    ensures signedIn && profileId.Some? && ValidateForm(f).Some? ==> r.notice == Some(ValidationNotice(ValidateForm(f).value))
    ensures signedIn && profileId.Some? && ValidateForm(f).None? ==> r.payload == Some(Payload(f, profileId.value))
  {
    if !signedIn || profileId.None? then SubmitStart(Some(LoginRequired), None)
    else match ValidateForm(f)
      case Some(complaint) => SubmitStart(Some(ValidationNotice(complaint)), None)
      case None => SubmitStart(None, Some(Payload(f, profileId.value)))
  }

  /** The modal's state; `open` and `refreshes` stand for the parent's callbacks. */
  class Modal {
    var formData: FormData
    var loading: bool
    var open: bool
    var notice: Option<Notice>
    var refreshes: nat

    constructor (isOpen: bool)
      ensures formData == DefaultForm && !loading && open == isOpen
      ensures notice == None && refreshes == 0
    {
      formData := DefaultForm;
      loading := false;
      open := isOpen;
      notice := None;
      refreshes := 0;
    }

    /** `handleInputChange`. */
    method HandleInputChange(field: FormField, value: string)
      modifies this`formData
      ensures formData == With(old(formData), field, value)
    {
      formData := With(formData, field, value);
    }

    /** `resetForm`. */
    method ResetForm()
      modifies this`formData
      ensures formData == DefaultForm
    {
      formData := DefaultForm;
    }

    /** `handleClose`: ignored while a submit is in flight, otherwise resets and closes. */
    method HandleClose()
      modifies this`formData, this`open
      ensures old(loading) ==> formData == old(formData) && open == old(open)
      ensures !old(loading) ==> formData == DefaultForm && !open
    {
      if !loading {
        ResetForm();
        open := false;
      }
    }

    /**
     * The synchronous part of `handleSubmit`: without a user and a profile it
     * stops with a notice; otherwise an invalid form stops with the first
     * complaint; otherwise loading starts and the payload for the profile is
     * returned for the insert.
     */
    method BeginSubmit(signedIn: bool, profileId: Option<string>) returns (payload: Option<ProjectPayload>)
      modifies this`loading, this`notice
      ensures var start := StartSubmit(signedIn, profileId, old(formData));
        && payload == start.payload
        && notice == (if start.notice.Some? then start.notice else old(notice))
        && loading == (old(loading) || start.payload.Some?)
    {
      var start := StartSubmit(signedIn, profileId, formData);
      payload := start.payload;
      if start.notice.Some? {
        notice := start.notice;
      }
      if start.payload.Some? {
        loading := true;
      }
    }

    /**
     * The rest of `handleSubmit`, given the insert's reply (an error carries its
     * message, if any): success announces the project, resets the form, closes
     * and asks for a refresh; failure shows the mapped message and keeps the
     * form; loading ends either way.
     */
    method FinishSubmit(reply: Result<(), Option<string>>)
      modifies this
      ensures !loading
      ensures reply.Ok? ==>
        && notice == Some(CreatedNotice(old(formData).name))
        && formData == DefaultForm && !open && refreshes == old(refreshes) + 1
      ensures reply.Err? ==>
        && notice == Some(Notice("Error Creating Project", CreateErrorMessage(reply.error), true))
        && formData == old(formData) && open == old(open) && refreshes == old(refreshes)
    {
      match reply {
        case Ok(_) =>
          notice := Some(CreatedNotice(formData.name));
          ResetForm();
          open := false;
          refreshes := refreshes + 1;
        case Err(message) =>
          notice := Some(Notice("Error Creating Project", CreateErrorMessage(message), true));
      }
      loading := false;
    }
  }
}
