/**
 * `AuthProvider` and `useAuth`: the provider keeps the signed-in session and
 * user, the effective role and the profile it exposes, and a loading flag.
 * The backend calls (profile read, role update, profile insert, session check)
 * are replaced by their results, passed in as parameters.
 */
module UseAuth {
  import opened Outcomes
  import opened Text
  import opened Records

  /** The one address that is always treated as an administrator. */
  const AdminEmail: string := "ahmualotaibi@flynas.com"

  /** The signed-in user as the identity service describes it. */
  datatype User = User(id: string, email: Option<string>, metadataFullName: Option<string>)

  datatype Session = Session(user: User)

  /** The row the provider inserts for a user that has no profile yet. */
  datatype ProfileInsert = ProfileInsert(id: string, email: Option<string>, full_name: Option<string>, role: string)

  /** What `useContext(AuthContext)` yields inside a provider. */
  datatype AuthContext = AuthContext(
    user: Option<User>,
    session: Option<Session>,
    loading: bool,
    userRole: Option<string>,
    userProfile: Option<Profile>)

  /** JavaScript truthiness of an optional string. */
  predicate Present(s: Option<string>) {
    s.Some? && s.value != ""
  }

  /**
   * The role of a user with a stored profile: `admin` for the fixed address,
   * otherwise the stored role, otherwise (null or empty) `member`.
   */
  function EffectiveRole(email: Option<string>, stored: Option<string>): (role: string)
    ensures role != ""
    ensures email == Some(AdminEmail) ==> role == Admin
    ensures email != Some(AdminEmail) && Present(stored) ==> role == stored.value
    ensures email != Some(AdminEmail) && !Present(stored) ==> role == Member
  {
    if email == Some(AdminEmail) then Admin
    else if Present(stored) then stored.value
    else Member
  }

  /** The role is `admin` exactly for the fixed address or a stored `admin` role. */
  lemma EffectiveRoleAdmin(email: Option<string>, stored: Option<string>)
    ensures EffectiveRole(email, stored) == Admin <==> email == Some(AdminEmail) || stored == Some(Admin)
  {
  }

  /** The stored role is rewritten to `admin` for the fixed address whose stored role is anything else. */
  predicate MustPatchStoredRole(email: Option<string>, stored: Option<string>) {
    email == Some(AdminEmail) && stored != Some(Admin)
  }

  /**
   * After the rewrite the stored role agrees with the effective role for the
   * fixed address, the effective role itself is unchanged, and no second
   * rewrite is needed.
   */
  lemma PatchSettlesStoredRole(email: Option<string>, stored: Option<string>)
    ensures var after := if MustPatchStoredRole(email, stored) then Some(Admin) else stored;
      && EffectiveRole(email, after) == EffectiveRole(email, stored)
      && !MustPatchStoredRole(email, after)
      && (email == Some(AdminEmail) ==> after == Some(EffectiveRole(email, stored)))
  {
  }

  /** The role a newly created profile gets. */
  function NewRole(email: Option<string>): (role: string)
    ensures role == Admin <==> email == Some(AdminEmail)
    ensures role != Admin ==> role == Member
  {
    if email == Some(AdminEmail) then Admin else Member
  }

  /** A new profile gets the role an existing profile with no stored role would get. */
  lemma NewRoleIsDefaultRole(email: Option<string>)
    ensures NewRole(email) == EffectiveRole(email, None)
  {
  }

  /**
   * The row inserted for a user with no profile: its full name is the metadata
   * name when there is one, otherwise the part of the address before the first `@`.
   */
  function NewProfileRow(u: User): (row: ProfileInsert)
    ensures row.id == u.id && row.email == u.email && row.role == NewRole(u.email)
    ensures Present(u.metadataFullName) ==> row.full_name == u.metadataFullName
    ensures !Present(u.metadataFullName) && u.email.Some? ==>
      row.full_name.Some? && StartsWith(u.email.value, row.full_name.value) && '@' !in row.full_name.value
    ensures !Present(u.metadataFullName) && u.email.None? ==> row.full_name.None?
  {
    var fullName :=
      if Present(u.metadataFullName) then u.metadataFullName
      else if u.email.Some? then Some(BeforeFirst(u.email.value, '@'))
      else None;
    ProfileInsert(u.id, u.email, fullName, NewRole(u.email))
  }

  /** Without metadata, an address with an `@` names the profile after its local part. */
  lemma NewProfileNameIsLocalPart(u: User, local: string, domain: string)
    requires !Present(u.metadataFullName) && u.email == Some(local + "@" + domain) && '@' !in local
    ensures NewProfileRow(u).full_name == Some(local)
  {
    var e := local + "@" + domain;
    var r := BeforeFirst(e, '@');
    assert e[|local|] == '@';
    assert r == e[..|local|] == local;
  }

  /** The provider's state. */
  class AuthProvider {
    var session: Option<Session>
    var user: Option<User>
    var loading: bool
    var userRole: Option<string>
    var userProfile: Option<Profile>

    /** Nothing is known before the first auth event: loading, no user, no role. */
    constructor ()
      ensures session == None && user == None && loading
      ensures userRole == None && userProfile == None
    {
      session := None;
      user := None;
      loading := true;
      userRole := None;
      userProfile := None;
    }

    /** The value the provider hands to `useAuth`. */
    function Context(): AuthContext
      reads this
    {
      AuthContext(user, session, loading, userRole, userProfile)
    }

    /**
     * The auth-state listener: records the session and its user; with no user
     * it clears the role and the profile (with a user, loading the profile is
     * deferred to `LoadProfile`); loading ends after every event.
     */
    method OnAuthStateChange(s: Option<Session>)
      modifies this
      ensures session == s
      ensures user == if s.Some? then Some(s.value.user) else None
      ensures s.None? ==> userRole == None && userProfile == None
      ensures s.Some? ==> userRole == old(userRole) && userProfile == old(userProfile)
      ensures !loading
    {
      session := s;
      user := if s.Some? then Some(s.value.user) else None;
      if s.None? {
        userRole := None;
        userProfile := None;
      }
      loading := false;
    }

    /**
     * The deferred profile load for user `u`. `fetched` is the profile read;
     * `patchThrew` says whether the role update throws; `created` is the
     * insert's reply. Returns whether the role update is sent and the row
     * inserted, if any. Any thrown error leaves the role `member` and the
     * profile as it was.
     */
    method LoadProfile(u: User, fetched: Lookup<Profile>, patchThrew: bool, created: Lookup<Profile>)
      returns (patched: bool, inserted: Option<ProfileInsert>)
      modifies this`userRole, this`userProfile
      ensures patched <==> fetched.Row? && MustPatchStoredRole(u.email, fetched.row.role)
      ensures inserted.Some? <==> fetched.NoRow?
      ensures inserted.Some? ==> inserted.value == NewProfileRow(u)
      ensures fetched.Row? && !(patched && patchThrew) ==>
        var role := EffectiveRole(u.email, fetched.row.role);
        userRole == Some(role) && userProfile == Some(fetched.row.(role := Some(role)))
      ensures fetched.NoRow? && created.Row? ==>
        userRole == Some(NewRole(u.email)) && userProfile == Some(created.row)
      ensures fetched.NoRow? && created.NoRow? ==>
        userRole == old(userRole) && userProfile == old(userProfile)
      ensures fetched.Threw? || (patched && patchThrew) || (fetched.NoRow? && created.Threw?) ==>
        userRole == Some(Member) && userProfile == old(userProfile)
    {
      patched := false;
      inserted := None;
      match fetched {
        case Threw =>
          userRole := Some(Member);
        case Row(p) =>
          var finalRole := EffectiveRole(u.email, p.role);
          if MustPatchStoredRole(u.email, p.role) {
            patched := true;
            if patchThrew {
              userRole := Some(Member);
              return;
            }
          }
          userRole := Some(finalRole);
          userProfile := Some(p.(role := Some(finalRole)));
        case NoRow =>
          var row := NewProfileRow(u);
          inserted := Some(row);
          match created {
            case Threw =>
              userRole := Some(Member);
            case NoRow =>
            case Row(q) =>
              userRole := Some(row.role);
              userProfile := Some(q);
          }
      }
    }

    /** The initial session check ends loading only when there is no session. */
    method InitialSessionCheck(s: Option<Session>)
      modifies this`loading
      ensures loading == (old(loading) && s.Some?)
    {
      if s.None? {
        loading := false;
      }
    }
  }

  /** The error `useAuth` throws outside a provider. */
  const OutsideProviderError: string := "useAuth must be used within an AuthProvider"

  /** `useAuth`: the provider's value, or the thrown error when there is no provider. */
  function UseAuthContext(context: Option<AuthContext>): (r: Result<AuthContext, string>)
    ensures r.Err? <==> context.None?
    ensures r.Err? ==> r.error == OutsideProviderError
    ensures r.Ok? ==> r.value == context.value
  {
    match context
    case None => Err(OutsideProviderError)
    case Some(c) => Ok(c)
  }
}
