/**
 * `SettingsPage`: the admin's profile list (fetched only for admins, with the
 * same defaults the team page fills in), and the edit form: start, per-field
 * edits, cancel and save. Backend replies are parameters.
 */
module SettingsPage {
  import opened Outcomes
  import opened Records
  import TeamPage

  /** The keys `startEditing` copies into the edit form. */
  datatype ProfileField = FullName | Email | Role | Department | Position | Workload | Status

  /** A value in the edit form: a string (null when the profile has none) or the workload number. */
  datatype FieldValue = Text(text: Option<string>) | Amount(amount: Option<real>)

  /** `Partial<UserProfile>`: the fields present in the form and their values. */
  type EditForm = map<ProfileField, FieldValue>

  /** The fields an input of the edit dialog writes; the workload has no input. */
  predicate HasInput(f: ProfileField) {
    f != Workload
  }

  /** The form `startEditing(profile)` sets: exactly the seven fields, copied from the profile. */
  function EditFormOf(p: Profile): (form: EditForm)
    ensures form.Keys == {FullName, Email, Role, Department, Position, Workload, Status}
    ensures form[FullName] == Text(p.full_name) && form[Email] == Text(Some(p.email))
    ensures form[Role] == Text(p.role) && form[Department] == Text(p.department)
    ensures form[Position] == Text(p.position) && form[Status] == Text(p.status)
    ensures form[Workload] == Amount(p.workload)
  {
    map[FullName := Text(p.full_name), Email := Text(Some(p.email)), Role := Text(p.role),
        Department := Text(p.department), Position := Text(p.position),
        Workload := Amount(p.workload), Status := Text(p.status)]
  }

  /** `setEditForm({...editForm, <field>: value})`: one field set, every other entry kept. */
  function WithField(form: EditForm, f: ProfileField, value: string): (r: EditForm)
    ensures f in r && r[f] == Text(Some(value))
    ensures forall g :: g != f ==> (g in r <==> g in form)
    ensures forall g :: g != f && g in form ==> r[g] == form[g]
  {
    form[f := Text(Some(value))]
  }

  /** What an input shows: `editForm.<field> || ''`. */
  function Shown(form: EditForm, f: ProfileField): (s: string)
    requires HasInput(f)
    ensures f in form && form[f].Text? && form[f].text.Some? ==> s == form[f].text.value
    ensures !(f in form && form[f].Text? && form[f].text.Some?) ==> s == ""
  {
    if f in form && form[f].Text? && form[f].text.Some? then form[f].text.value else ""
  }

  /** After an edit, the edited input shows the value typed. */
  lemma ShownAfterEdit(form: EditForm, f: ProfileField, value: string)
    requires HasInput(f)
    ensures Shown(WithField(form, f, value), f) == value
  {
  }

  // ---------------------------------------------------------------------
  // Gates and colours
  // ---------------------------------------------------------------------

  /** Profiles are fetched, and the User Management tab exists, only for admins. */
  predicate IsAdminView(role: Option<string>) {
    role == Some(Admin)
  }

  /** `getRoleColor`: the badge variant for a role. */
  function RoleBadge(role: Option<string>): (v: string)
    ensures v == "outline" <==> !(Is(role, Admin) || Is(role, Manager) || Is(role, Member))
    ensures Is(role, Admin) <==> v == "destructive"
    ensures Is(role, Manager) <==> v == "default"
    ensures Is(role, Member) <==> v == "secondary"
  {
    if Is(role, Admin) then "destructive"
    else if Is(role, Manager) then "default"
    else if Is(role, Member) then "secondary"
    else "outline"
  }

  /** `getStatusColor(profile.status || 'active')`: the status dot's colour. */
  function StatusDot(status: Option<string>): (c: string)
    ensures status.None? || status == Some("") || status == Some("active") <==> c == "bg-green-500"
    ensures status == Some("busy") <==> c == "bg-yellow-500"
    ensures c == "bg-gray-500" <==>
      !(status.None? || status == Some("") || status == Some("active")) && status != Some("busy")
  {
    var s := if status.Some? && status.value != "" then status.value else "active";
    if s == "active" then "bg-green-500"
    else if s == "busy" then "bg-yellow-500"
    else "bg-gray-500"
  }

  // ---------------------------------------------------------------------
  // The page state
  // ---------------------------------------------------------------------

  /** The last toast shown. */
  datatype Notice = NoNotice | FetchFailed | ProfileUpdated | UpdateFailed

  class Settings {
    var profiles: seq<Profile>
    var loading: bool
    var editingProfile: Option<string>
    var editForm: EditForm
    var notice: Notice

    constructor ()
      ensures profiles == [] && !loading && editingProfile.None? && editForm == map[] && notice == NoNotice
    {
      profiles := [];
      loading := false;
      editingProfile := None;
      editForm := map[];
      notice := NoNotice;
    }

    /** The edit dialog is open when a profile is being edited. */
    predicate DialogOpen()
      reads this
    {
      editingProfile.Some? && editingProfile.value != ""
    }

    /** A row shows Save and Cancel instead of Edit when it is the profile being edited. */
    predicate RowEditing(p: Profile)
      reads this
    {
      editingProfile == Some(p.id)
    }

    /**
     * `fetchAllProfiles`: the rows (with defaults filled in, none for null
     * data) replace the list; an error keeps the list and shows a toast.
     * Loading ends either way; the edit state is not touched.
     */
    method FetchAllProfiles(reply: Result<Option<seq<Profile>>, string>)
      modifies this
      ensures !loading
      ensures reply.Ok? ==> profiles == TeamPage.MapMembers(reply.value) && notice == old(notice)
      ensures reply.Err? ==> profiles == old(profiles) && notice == FetchFailed
      ensures editingProfile == old(editingProfile) && editForm == old(editForm)
    {
      loading := true;
      if reply.Ok? {
        profiles := TeamPage.MapMembers(reply.value);
      } else {
        notice := FetchFailed;
      }
      loading := false;
    }

    /** The effect that runs when the role changes: only an admin fetches the profiles. */
    method OnRoleChange(role: Option<string>, reply: Result<Option<seq<Profile>>, string>)
      modifies this
      ensures !IsAdminView(role) ==>
        && profiles == old(profiles) && loading == old(loading) && notice == old(notice)
        && editingProfile == old(editingProfile) && editForm == old(editForm)
      ensures IsAdminView(role) ==>
        && !loading && editingProfile == old(editingProfile) && editForm == old(editForm)
        && (reply.Ok? ==> profiles == TeamPage.MapMembers(reply.value) && notice == old(notice))
        && (reply.Err? ==> profiles == old(profiles) && notice == FetchFailed)
    {
      if IsAdminView(role) {
        FetchAllProfiles(reply);
      }
    }

    /** `startEditing(profile)`: the profile's id and a copy of its seven editable fields. */
    method StartEditing(p: Profile)
      modifies this
      ensures editingProfile == Some(p.id) && editForm == EditFormOf(p)
      ensures profiles == old(profiles) && loading == old(loading) && notice == old(notice)
    {
      editingProfile := Some(p.id);
      editForm := EditFormOf(p);
    }

    /** `cancelEditing`: no profile, an empty form, nothing else changed. */
    method CancelEditing()
      modifies this
      ensures editingProfile.None? && editForm == map[] && !DialogOpen()
      ensures profiles == old(profiles) && loading == old(loading) && notice == old(notice)
    {
      editingProfile := None;
      editForm := map[];
    }

    /** One of the dialog's inputs: only its own field changes. */
    method SetField(f: ProfileField, value: string)
      requires HasInput(f)
      modifies this
      ensures editForm == WithField(old(editForm), f, value)
      ensures editingProfile == old(editingProfile) && profiles == old(profiles)
      ensures loading == old(loading) && notice == old(notice)
    {
      editForm := WithField(editForm, f, value);
    }

    /**
     * `saveProfile(profileId)`: sends the form as the update. On success the
     * edit state is cleared and the list refetched (`refetch` is that read's
     * reply); on failure only the toast changes.
     */
    method SaveProfile(profileId: string, updateError: Option<string>,
                       refetch: Result<Option<seq<Profile>>, string>) returns (sent: EditForm)
      modifies this
      ensures sent == old(editForm)
      ensures updateError.None? ==>
        && editingProfile.None? && editForm == map[] && !loading
        && (refetch.Ok? ==> profiles == TeamPage.MapMembers(refetch.value) && notice == ProfileUpdated)
        && (refetch.Err? ==> profiles == old(profiles) && notice == FetchFailed)
      ensures updateError.Some? ==>
        && editingProfile == old(editingProfile) && editForm == old(editForm)
        && profiles == old(profiles) && loading == old(loading) && notice == UpdateFailed
    {
      sent := editForm;
      if updateError.None? {
        notice := ProfileUpdated;
        editingProfile := None;
        editForm := map[];
        FetchAllProfiles(refetch);
      } else {
        notice := UpdateFailed;
      }
    }
  }

  /** Starting to edit a profile and then cancelling leaves the edit state as it was before any edit. */
  method StartThenCancel(p: Profile) returns (editing: Option<string>, form: EditForm, dialogShown: bool)
    ensures dialogShown == (p.id != "")
    ensures editing.None? && form == map[]
  {
    var page := new Settings();
    page.StartEditing(p);
    dialogShown := page.DialogOpen();
    page.CancelEditing();
    editing, form := page.editingProfile, page.editForm;
  }
}
