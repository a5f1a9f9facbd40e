/**
 * `ProjectSecurityService`: the client-side checks on a project payload
 * (validation into a list of field errors, sanitisation into a clean record),
 * the owner/member access rule, and the scale suffix of a budget figure.
 */
module ProjectUtils {
  import opened Outcomes
  import opened Text
  import opened Numbers
  import opened IsoDate
  import opened Lists

  /** The payload fields the validator reports on, and the key each is reported under. */
  datatype Field = Name | Description | Budget | Progress | EndDate {
    function Key(): string {
      match this
      case Name => "name"
      case Description => "description"
      case Budget => "budget"
      case Progress => "progress"
      case EndDate => "end_date"
    }
  }

  /**
   * The payload handed to the service. It is untyped in the program, so the
   * numeric fields are raw JavaScript values (a string from a form, a number,
   * null or undefined); the text fields are a string or absent.
   */
  datatype ProjectData = ProjectData(
    name: Option<string>,
    description: Option<string>,
    status: Option<string>,
    priority: Option<string>,
    progress: Raw,
    budget: Raw,
    start_date: Option<string>,
    end_date: Option<string>,
    color: Option<string>)

  /** JavaScript truthiness of an optional string: present and non-empty. */
  predicate Present(s: Option<string>) {
    s.Some? && s.value != ""
  }

  // ---------------------------------------------------------------------
  // validateProjectData
  // ---------------------------------------------------------------------

  /**
   * The six `{ field, message }` errors the validator can report, one per
   * check, named after the check that raises it.
   */
  datatype ValidationError = NameTooShort | NameTooLong | DescriptionTooLong | BadBudget | BadProgress | EndBeforeStart {
    function Field(): Field {
      match this
      case NameTooShort => Name
      case NameTooLong => Name
      case DescriptionTooLong => Description
      case BadBudget => Budget
      case BadProgress => Progress
      case EndBeforeStart => EndDate
    }

    function Message(): string {
      match this
      case NameTooShort => "Project name must be at least 3 characters long"
      case NameTooLong => "Project name cannot exceed 100 characters"
      case DescriptionTooLong => "Description cannot exceed 500 characters"
      case BadBudget => "Budget must be a positive number"
      case BadProgress => "Progress must be between 0 and 100"
      case EndBeforeStart => "End date must be after start date"
    }
  }

  /** The position of each check in the order the validator runs them. */
  function Index(e: ValidationError): (i: nat)
    ensures i < 6
  {
    match e
    case NameTooShort => 0
    case NameTooLong => 1
    case DescriptionTooLong => 2
    case BadBudget => 3
    case BadProgress => 4
    case EndBeforeStart => 5
  }

  /** The check run in position `i`. */
  function CheckAt(i: nat): (e: ValidationError)
    requires i < 6
    ensures Index(e) == i
  {
    if i == 0 then NameTooShort
    else if i == 1 then NameTooLong
    else if i == 2 then DescriptionTooLong
    else if i == 3 then BadBudget
    else if i == 4 then BadProgress
    else EndBeforeStart
  }

  // The failure condition of each check.

  /** A missing or empty name, or one shorter than 3 characters once trimmed. */
  predicate NameIsTooShort(d: ProjectData) {
    !Present(d.name) || |Trim(d.name.value)| < 3
  }

  /** The raw, untrimmed name is longer than 100 characters. */
  predicate NameIsTooLong(d: ProjectData) {
    Present(d.name) && |d.name.value| > 100
  }

  predicate DescriptionIsTooLong(d: ProjectData) {
    Present(d.description) && |d.description.value| > 500
  }

  /** A truthy budget that is not a number or is negative (zero, empty, absent and NaN are falsy). */
  predicate BudgetIsBad(d: ProjectData) {
    Truthy(d.budget) && (ToNumber(d.budget).NaN? || LessThan(d.budget, 0.0))
  }

  /** A truthy progress below 0 or above 100. */
  predicate ProgressIsBad(d: ProjectData) {
    Truthy(d.progress) && (LessThan(d.progress, 0.0) || GreaterThan(d.progress, 100.0))
  }

  /** Both dates present and the end strictly before the start. */
  predicate EndIsBeforeStart(d: ProjectData) {
    Present(d.start_date) && Present(d.end_date) && DateLess(d.end_date.value, d.start_date.value)
  }

  /** The check that raises `e` fails on `d`. */
  predicate Fails(e: ValidationError, d: ProjectData) {
    match e
    case NameTooShort => NameIsTooShort(d)
    case NameTooLong => NameIsTooLong(d)
    case DescriptionTooLong => DescriptionIsTooLong(d)
    case BadBudget => BudgetIsBad(d)
    case BadProgress => ProgressIsBad(d)
    case EndBeforeStart => EndIsBeforeStart(d)
  }

  /** The errors of the first `k` checks that fail on `d`, in the order the checks run. */
  function FailedAmong(d: ProjectData, k: nat): seq<ValidationError>
    requires k <= 6
  {
    if k == 0 then []
    else FailedAmong(d, k - 1) + (if Fails(CheckAt(k - 1), d) then [CheckAt(k - 1)] else [])
  }

  /** The errors of all the checks that fail on `d`. */
  function FailedChecks(d: ProjectData): seq<ValidationError> {
    FailedAmong(d, 6)
  }

  /**
   * `validateProjectData`: every check runs (there is no early exit) and the
   * error of each failing one is appended in turn.
   */
  method ValidateProjectData(d: ProjectData) returns (errors: seq<ValidationError>)
    ensures errors == FailedChecks(d)
  {
    errors := [];
    if NameIsTooShort(d) {
      errors := errors + [NameTooShort];
    }
    assert errors == FailedAmong(d, 1);
    if NameIsTooLong(d) {
      errors := errors + [NameTooLong];
    }
    assert errors == FailedAmong(d, 2);
    if DescriptionIsTooLong(d) {
      errors := errors + [DescriptionTooLong];
    }
    assert errors == FailedAmong(d, 3);
    if BudgetIsBad(d) {
      errors := errors + [BadBudget];
    }
    assert errors == FailedAmong(d, 4);
    if ProgressIsBad(d) {
      errors := errors + [BadProgress];
    }
    assert errors == FailedAmong(d, 5);
    if EndIsBeforeStart(d) {
      errors := errors + [EndBeforeStart];
    }
  }

  /**
   * Among the first `k` checks, an error is listed exactly when its check
   * fails, and the list runs in check order, each error at most once.
   */
  lemma {:induction false} FailedAmongSpec(d: ProjectData, k: nat)
    requires k <= 6
    ensures forall e :: e in FailedAmong(d, k) <==> Index(e) < k && Fails(e, d)
    ensures forall i, j :: 0 <= i < j < |FailedAmong(d, k)| ==>
      Index(FailedAmong(d, k)[i]) < Index(FailedAmong(d, k)[j])
    ensures forall i :: 0 <= i < |FailedAmong(d, k)| ==> Index(FailedAmong(d, k)[i]) < k
  {
    if k > 0 {
      FailedAmongSpec(d, k - 1);
      forall e ensures e in FailedAmong(d, k) <==> Index(e) < k && Fails(e, d) {
        if Index(e) == k - 1 {
          assert e == CheckAt(k - 1) by {
            match e
            case NameTooShort =>
            case NameTooLong =>
            case DescriptionTooLong =>
            case BadBudget =>
            case BadProgress =>
            case EndBeforeStart =>
          }
        }
      }
    }
  }

  /** The errors of fewer checks are a prefix of the errors of more checks. */
  lemma {:induction false} FailedAmongPrefix(d: ProjectData, j: nat, k: nat)
    requires j <= k <= 6
    ensures |FailedAmong(d, j)| <= |FailedAmong(d, k)|
    ensures FailedAmong(d, j) == FailedAmong(d, k)[..|FailedAmong(d, j)|]
    decreases k
  {
    if j < k {
      FailedAmongPrefix(d, j, k - 1);
      var shorter := FailedAmong(d, k - 1);
      assert FailedAmong(d, k)[..|shorter|] == shorter;
    }
  }

  /** Every check fails or passes on its own: the list holds the error of every failing check, in check order. */
  lemma FailedChecksSpec(d: ProjectData)
    ensures forall e :: e in FailedChecks(d) <==> Fails(e, d)
    ensures forall i, j :: 0 <= i < j < |FailedChecks(d)| ==>
      Index(FailedChecks(d)[i]) < Index(FailedChecks(d)[j])
  {
    FailedAmongSpec(d, 6);
  }

  /** Some error in `errors` is about `field`. */
  predicate Reports(errors: seq<ValidationError>, field: Field) {
    exists i :: 0 <= i < |errors| && errors[i].Field() == field
  }

  /** A field is reported exactly when one of the checks on it fails. */
  lemma ReportedFields(d: ProjectData, f: Field)
    ensures Reports(FailedChecks(d), f) <==> exists e: ValidationError :: e.Field() == f && Fails(e, d)
  {
    var fs := FailedChecks(d);
    FailedChecksSpec(d);
    if Reports(fs, f) {
      var i :| 0 <= i < |fs| && fs[i].Field() == f;
      assert fs[i] in fs;
    }
    if exists e: ValidationError :: e.Field() == f && Fails(e, d) {
      var e: ValidationError :| e.Field() == f && Fails(e, d);
      assert e in fs;
      var i :| 0 <= i < |fs| && fs[i] == e;
    }
  }

  /** The name is reported exactly when it is too short or too long; the end date exactly when it precedes the start. */
  lemma ReportedNameAndDates(d: ProjectData)
    ensures Reports(FailedChecks(d), Name) <==> NameIsTooShort(d) || NameIsTooLong(d)
    ensures Reports(FailedChecks(d), EndDate) <==> EndIsBeforeStart(d)
  {
    var fs := FailedChecks(d);
    FailedChecksSpec(d);
    ErrorsOnNameAndEndDate(fs);
    assert NameTooShort in fs <==> NameIsTooShort(d);
    assert NameTooLong in fs <==> NameIsTooLong(d);
    assert EndBeforeStart in fs <==> EndIsBeforeStart(d);
  }

  /** Only the two length errors are about the name, and only the order error is about the end date. */
  lemma ErrorsOnNameAndEndDate(errors: seq<ValidationError>)
    ensures Reports(errors, Name) <==> NameTooShort in errors || NameTooLong in errors
    ensures Reports(errors, EndDate) <==> EndBeforeStart in errors
  {
    if Reports(errors, Name) {
      var i :| 0 <= i < |errors| && errors[i].Field() == Name;
      assert errors[i] == NameTooShort || errors[i] == NameTooLong;
    }
    if Reports(errors, EndDate) {
      var i :| 0 <= i < |errors| && errors[i].Field() == EndDate;
      assert errors[i] == EndBeforeStart;
    }
    if NameTooShort in errors || NameTooLong in errors {
      var i :| 0 <= i < |errors| && errors[i] in {NameTooShort, NameTooLong};
      assert errors[i].Field() == Name;
    }
    if EndBeforeStart in errors {
      var i :| 0 <= i < |errors| && errors[i] == EndBeforeStart;
      assert errors[i].Field() == EndDate;
    }
  }

  /** No errors exactly when the payload passes every check. */
  lemma NoErrorsIffValid(d: ProjectData)
    ensures FailedChecks(d) == [] <==> forall e :: !Fails(e, d)
  {
    FailedChecksSpec(d);
    if FailedChecks(d) != [] {
      assert FailedChecks(d)[0] in FailedChecks(d);
    }
  }

  /** Errors come out in check order: a short-name error first, an end-date error last. */
  lemma ErrorsInCheckOrder(d: ProjectData)
    ensures NameIsTooShort(d) ==> |FailedChecks(d)| > 0 && FailedChecks(d)[0] == NameTooShort
    ensures EndIsBeforeStart(d) ==>
      |FailedChecks(d)| > 0 && FailedChecks(d)[|FailedChecks(d)| - 1] == EndBeforeStart
  {
    var fs := FailedChecks(d);
    FailedChecksSpec(d);
    if NameIsTooShort(d) {
      assert NameTooShort in fs;
      var j :| 0 <= j < |fs| && fs[j] == NameTooShort;
    }
  }

  /** A budget is checked only when it is truthy: zero, empty, absent and NaN values pass. */
  lemma BudgetCheckCases(d: ProjectData, v: real)
    ensures d.budget == Num(Finite(v)) ==> (BudgetIsBad(d) <==> v < 0.0)
    ensures d.budget in {Undefined, Null, Str(""), Num(NaN), Num(Finite(0.0))} ==> !BudgetIsBad(d)
    ensures d.budget.Str? && d.budget.s != "" && ToNumber(d.budget).NaN? ==> BudgetIsBad(d)
  {
  }

  /** A progress value is checked only when it is truthy, and then must lie in [0, 100]. */
  lemma ProgressCheckCases(d: ProjectData, v: real)
    ensures d.progress == Num(Finite(v)) ==> (ProgressIsBad(d) <==> v < 0.0 || v > 100.0)
    ensures !Truthy(d.progress) ==> !ProgressIsBad(d)
  {
  }

  /** Equal start and end dates pass; so does any pair where a date is missing or invalid. */
  lemma SameDayAccepted(d: ProjectData)
    ensures d.start_date == d.end_date ==> !EndIsBeforeStart(d)
    ensures !Present(d.start_date) || !Present(d.end_date) ==> !EndIsBeforeStart(d)
    ensures Present(d.end_date) && Day(d.end_date.value).None? ==> !EndIsBeforeStart(d)
  {
  }

  /** A name of 101 spaces is both too short (once trimmed) and too long (untrimmed). */
  lemma BlankLongNameFailsTwice(d: ProjectData)
    requires d.name == Some(seq(101, _ => ' '))
    ensures |FailedChecks(d)| >= 2 && FailedChecks(d)[..2] == [NameTooShort, NameTooLong]
  {
    var name := d.name.value;
    assert IsBlank(name);
    TrimEmptyIffBlank(name);
    assert |name| == 101;
    assert NameIsTooShort(d) && NameIsTooLong(d);
    assert FailedAmong(d, 1) == [NameTooShort];
    assert FailedAmong(d, 2) == [NameTooShort, NameTooLong];
    FailedAmongPrefix(d, 2, 6);
  }

  // ---------------------------------------------------------------------
  // sanitizeProjectData
  // ---------------------------------------------------------------------

  const ProjectStatuses: seq<string> := ["planning", "active", "on_hold", "completed"]
  const ProjectPriorities: seq<string> := ["low", "medium", "high", "urgent"]
  const DefaultColor: string := "#3B82F6"

  predicate IsHexDigit(c: char) {
    '0' <= c <= '9' || 'A' <= c <= 'F' || 'a' <= c <= 'f'
  }

  /** `/^#[0-9A-F]{6}$/i`. */
  predicate IsHexColor(s: string) {
    |s| == 7 && s[0] == '#' && forall i :: 1 <= i < 7 ==> IsHexDigit(s[i])
  }

  /** The fallback colour is itself a valid colour. */
  lemma DefaultColorIsHex()
    ensures IsHexColor(DefaultColor)
  {
    var s := DefaultColor;
    assert |s| == 7 && s[0] == '#';
    assert s[1] == '3' && s[2] == 'B' && s[3] == '8' && s[4] == '2' && s[5] == 'F' && s[6] == '6';
  }

  /** The record `sanitizeProjectData` returns. `budget` is null (None) or a number, possibly NaN. */
  datatype SanitizedProject = SanitizedProject(
    name: string,
    description: string,
    status: string,
    priority: string,
    progress: int,
    budget: Option<JsNumber>,
    start_date: Option<string>,
    end_date: Option<string>,
    color: string)

  /** `s?.trim() || ''`. */
  function TrimmedOrEmpty(s: Option<string>): (r: string)
    ensures r == [] || (!IsSpace(r[0]) && !IsSpace(r[|r| - 1]))
    ensures s.Some? ==> r == Trim(s.value)
    ensures s.None? ==> r == ""
  {
    if s.Some? then Trim(s.value) else ""
  }

  /** `[...].includes(x) ? x : fallback`. */
  function Whitelisted(x: Option<string>, allowed: seq<string>, fallback: string): (r: string)
    requires fallback in allowed
    ensures r in allowed
    ensures x.Some? && x.value in allowed ==> r == x.value
    ensures !(x.Some? && x.value in allowed) ==> r == fallback
  {
    if x.Some? && x.value in allowed then x.value else fallback
  }

  /** `Math.max(0, Math.min(100, parseInt(v) || 0))`. */
  function ClampedProgress(v: Raw): (r: int)
    ensures 0 <= r <= 100
    ensures ParseIntOf(v).NaN? ==> r == 0
    ensures ParseIntOf(v).Finite? ==>
      var n := ParseIntOf(v).value.Floor;
      r == if n < 0 then 0 else if n > 100 then 100 else n
  {
    var parsed := ParseIntOf(v);
    var n := if parsed.NaN? then 0 else parsed.value.Floor;
    if n < 0 then 0 else if n > 100 then 100 else n
  }

  /** `v ? Math.max(0, parseFloat(v)) : null`: a NaN parse stays NaN, a negative value becomes 0. */
  function SanitizedBudget(v: Raw): (r: Option<JsNumber>)
    ensures r.None? <==> !Truthy(v)
    ensures r.Some? ==> (r.value.NaN? <==> ParseFloatOf(v).NaN?)
    ensures r.Some? && r.value.Finite? ==>
      r.value.value >= 0.0 && (r.value.value == ParseFloatOf(v).value || ParseFloatOf(v).value < 0.0)
    ensures r.Some? && ParseFloatOf(v).Finite? ==>
      r.value == Finite(if ParseFloatOf(v).value < 0.0 then 0.0 else ParseFloatOf(v).value)
  {
    if !Truthy(v) then None
    else
      match ParseFloatOf(v)
      case NaN => Some(NaN)
      case Finite(x) => Some(Finite(if x < 0.0 then 0.0 else x))
  }

  /** `v || null` for a date string. */
  function DateOrNull(s: Option<string>): (r: Option<string>)
    ensures r.None? <==> !Present(s)
    ensures r.Some? ==> r == s
  {
    if Present(s) then s else None
  }

  /** `sanitizeProjectData`. */
  function SanitizeProjectData(d: ProjectData): (r: SanitizedProject)
    ensures r.name == TrimmedOrEmpty(d.name) && r.description == TrimmedOrEmpty(d.description)
    ensures r.status in ProjectStatuses && r.priority in ProjectPriorities
    ensures 0 <= r.progress <= 100
    ensures r.budget.None? <==> !Truthy(d.budget)
    ensures r.budget.Some? && r.budget.value.Finite? ==> r.budget.value.value >= 0.0
    ensures r.start_date.None? <==> !Present(d.start_date)
    ensures r.end_date.None? <==> !Present(d.end_date)
    ensures IsHexColor(r.color)
    ensures d.color.Some? ==> (r.color == d.color.value <==> IsHexColor(d.color.value))
    ensures !(d.color.Some? && IsHexColor(d.color.value)) ==> r.color == DefaultColor
    ensures r.status == Whitelisted(d.status, ProjectStatuses, "planning")
    ensures r.priority == Whitelisted(d.priority, ProjectPriorities, "medium")
    ensures r.progress == ClampedProgress(d.progress) && r.budget == SanitizedBudget(d.budget)
    ensures r.start_date == DateOrNull(d.start_date) && r.end_date == DateOrNull(d.end_date)
  {
    DefaultColorIsHex();
    SanitizedProject(
      TrimmedOrEmpty(d.name),
      TrimmedOrEmpty(d.description),
      Whitelisted(d.status, ProjectStatuses, "planning"),
      Whitelisted(d.priority, ProjectPriorities, "medium"),
      ClampedProgress(d.progress),
      SanitizedBudget(d.budget),
      DateOrNull(d.start_date),
      DateOrNull(d.end_date),
      if d.color.Some? && IsHexColor(d.color.value) then d.color.value else DefaultColor)
  }

  /** A sanitised record, fed back to the service as a payload. */
  function AsData(r: SanitizedProject): ProjectData {
    ProjectData(Some(r.name), Some(r.description), Some(r.status), Some(r.priority),
                Num(Finite(r.progress as real)),
                match r.budget { case None => Null case Some(b) => Num(b) },
                r.start_date, r.end_date, Some(r.color))
  }

  /** A trimmed text field trims to itself. */
  lemma TrimmedOrEmptyStable(s: Option<string>)
    ensures TrimmedOrEmpty(Some(TrimmedOrEmpty(s))) == TrimmedOrEmpty(s)
  {
    if s.Some? {
      TrimIdempotent(s.value);
    } else {
      assert TrimStart("") == "";
    }
  }

  /** A clamped progress parses back to itself. */
  lemma ClampedProgressStable(n: int)
    requires 0 <= n <= 100
    ensures ClampedProgress(Num(Finite(n as real))) == n
  {
    assert (n as real).Floor == n;
  }

  /** A sanitised budget sanitises to itself, except that 0 and NaN are falsy and become null. */
  lemma SanitizedBudgetStable(v: Raw)
    ensures var b := SanitizedBudget(v);
      SanitizedBudget(match b { case None => Null case Some(n) => Num(n) }) ==
        if b.Some? && b.value.Finite? && b.value.value != 0.0 then b else None
  {
  }

  /**
   * Sanitising is stable: a sanitised record sanitises to itself, except that a
   * budget of 0 or NaN, being falsy, becomes null the second time.
   */
  lemma SanitizeStable(d: ProjectData)
    ensures var r := SanitizeProjectData(d);
      SanitizeProjectData(AsData(r)) ==
        r.(budget := if r.budget.Some? && r.budget.value.Finite? && r.budget.value.value != 0.0 then r.budget else None)
  {
    var r := SanitizeProjectData(d);
    TrimmedOrEmptyStable(d.name);
    TrimmedOrEmptyStable(d.description);
    ClampedProgressStable(r.progress);
    SanitizedBudgetStable(d.budget);
  }

  /**
   * The two halves of the service disagree on a negative budget: the validator
   * rejects it, the sanitiser turns it into 0.
   */
  lemma NegativeBudgetClash(d: ProjectData, v: real)
    requires d.budget == Num(Finite(v)) && v < 0.0
    ensures BadBudget in FailedChecks(d)
    ensures SanitizeProjectData(d).budget == Some(Finite(0.0))
  {
    FailedChecksSpec(d);
  }

  /** Likewise a progress above 100 is rejected by one and clamped to 100 by the other. */
  lemma ExcessProgressClash(d: ProjectData, v: int)
    requires d.progress == Num(Finite(v as real)) && v > 100
    ensures BadProgress in FailedChecks(d)
    ensures SanitizeProjectData(d).progress == 100
  {
    FailedChecksSpec(d);
    assert (v as real).Floor == v;
  }

  // ---------------------------------------------------------------------
  // validateProjectAccess
  // ---------------------------------------------------------------------

  datatype AccessAction = Read | Write | Delete

  /**
   * What `select('owner_id') ... .single()` on the project gave: its owner, or
   * nothing (an error, no row, or a thrown exception).
   */
  datatype ProjectLookup = ProjectFound(owner_id: string) | ProjectNotFound

  /**
   * What the membership lookup `.single()` gave: the number of matching rows,
   * or a thrown exception. `.single()` yields a row only when there is exactly one.
   */
  datatype MembershipLookup = MembershipRows(count: nat) | MembershipThrew

  /** `validateProjectAccess`, on the results of its two lookups. */
  function ValidateProjectAccess(project: ProjectLookup, userId: string, action: AccessAction,
                                 membership: MembershipLookup): (granted: bool)
    ensures project.ProjectNotFound? ==> !granted
    ensures project.ProjectFound? && project.owner_id == userId ==> granted
    ensures project.ProjectFound? && project.owner_id != userId ==>
      (granted <==> action == Read && membership == MembershipRows(1))
  {
    match project
    case ProjectNotFound => false
    case ProjectFound(owner) =>
      if owner == userId then true
      else if action == Read then membership.MembershipRows? && membership.count == 1
      else false
  }

  /**
   * Write and delete are decided alike, and whatever may be written may be read;
   * a non-owner can never write.
   */
  lemma AccessByAction(project: ProjectLookup, userId: string, membership: MembershipLookup)
    ensures ValidateProjectAccess(project, userId, Write, membership) ==
            ValidateProjectAccess(project, userId, Delete, membership)
    ensures ValidateProjectAccess(project, userId, Write, membership) ==>
            ValidateProjectAccess(project, userId, Read, membership)
    ensures ValidateProjectAccess(project, userId, Write, membership) <==>
            project == ProjectFound(userId)
  {
  }

  // ---------------------------------------------------------------------
  // formatProjectBudget
  // ---------------------------------------------------------------------

  /** The unit `formatProjectBudget` writes a budget in. */
  datatype BudgetScale = Millions | Thousands | Units

  /** The unit chosen for `budget`, and the figure written before the suffix (before rounding). */
  function BudgetDisplay(budget: real): (r: (BudgetScale, real))
    ensures r.0 == Millions <==> budget >= 1000000.0
    ensures r.0 == Thousands <==> 1000.0 <= budget < 1000000.0
    ensures r.0 == Thousands ==> 1.0 <= r.1 < 1000.0
    ensures r.0 == Millions ==> r.1 >= 1.0
    ensures r.0 == Units ==> r.1 == budget && budget < 1000.0
  {
    if budget >= 1000000.0 then (Millions, budget / 1000000.0)
    else if budget >= 1000.0 then (Thousands, budget / 1000.0)
    else (Units, budget)
  }

  function ScaleRank(s: BudgetScale): nat {
    match s
    case Units => 0
    case Thousands => 1
    case Millions => 2
  }

  /** A larger budget never gets a smaller unit. */
  lemma BudgetScaleMonotone(a: real, b: real)
    requires a <= b
    ensures ScaleRank(BudgetDisplay(a).0) <= ScaleRank(BudgetDisplay(b).0)
  {
  }
}
