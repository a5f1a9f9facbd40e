/**
 * `TeamPage`: the profile list with default values filled in, its search and
 * role filter, the four stat cards, the admin-only controls and the empty
 * state. The backend read is a parameter.
 */
module TeamPage {
  import opened Outcomes
  import opened Text
  import opened Lists
  import opened Records

  /** `{ ...member, workload: member.workload || 0, status: member.status || 'active' }`. */
  function WithDefaults(p: Profile): (m: Profile)
    ensures m.workload.Some? && m.status.Some? && m.status.value != ""
    ensures m.workload == (if p.workload.Some? then p.workload else Some(0.0))
    ensures m.status == (if p.status.Some? && p.status.value != "" then p.status else Some("active"))
    ensures m.(workload := p.workload, status := p.status) == p
  {
    p.(workload := Some(p.workload.GetOr(0.0)),
       status := if p.status.Some? && p.status.value != "" then p.status else Some("active"))
  }

  /** Filling in defaults twice changes nothing more. */
  lemma WithDefaultsIdempotent(p: Profile)
    ensures WithDefaults(WithDefaults(p)) == WithDefaults(p)
  {
  }

  /** The list the page keeps: the fetched rows (none when the data is null), each with defaults. */
  function MapMembers(data: Option<seq<Profile>>): (ms: seq<Profile>)
    ensures |ms| == |data.GetOr([])|
    ensures forall i :: 0 <= i < |ms| ==> ms[i] == WithDefaults(data.GetOr([])[i])
  {
    var rows := data.GetOr([]);
    seq(|rows|, i requires 0 <= i < |rows| => WithDefaults(rows[i]))
  }

  /** What the page holds after a fetch: the members, the loading flag and whether an error toast was shown. */
  datatype TeamState = TeamState(members: seq<Profile>, loading: bool, failed: bool)

  /** `fetchTeamMembers`: a reply replaces the list wholesale; an error keeps the old list and shows a toast. */
  function AfterFetch(s: TeamState, reply: Result<Option<seq<Profile>>, string>): (t: TeamState)
    ensures !t.loading
    ensures reply.Ok? ==> t.members == MapMembers(reply.value) && t.failed == s.failed
    ensures reply.Err? ==> t.members == s.members && t.failed
  {
    match reply
    case Ok(data) => TeamState(MapMembers(data), false, s.failed)
    case Err(_) => TeamState(s.members, false, true)
  }

  /** `x?.toLowerCase().includes(term)`: a missing value never matches. */
  predicate OptionalIncludes(x: Option<string>, search: string) {
    x.Some? && IncludesIgnoringCase(x.value, search)
  }

  /** Search on the full name, the email or the department, ignoring case. */
  predicate MatchesSearch(m: Profile, search: string) {
    OptionalIncludes(m.full_name, search) || IncludesIgnoringCase(m.email, search) || OptionalIncludes(m.department, search)
  }

  predicate MemberMatches(m: Profile, search: string, selectedRole: string) {
    MatchesSearch(m, search) && MatchesFilter(m.role, selectedRole)
  }

  /** `filteredMembers`: the members that match, in order. */
  function FilteredMembers(members: seq<Profile>, search: string, selectedRole: string): (r: seq<Profile>)
    ensures |r| <= |members|
    ensures forall i :: 0 <= i < |r| ==> r[i] in members && MemberMatches(r[i], search, selectedRole)
    ensures forall i :: 0 <= i < |members| && MemberMatches(members[i], search, selectedRole) ==> members[i] in r
  {
    Filter(members, m => MemberMatches(m, search, selectedRole))
  }

  /** Filtering keeps the order of the list: a concatenation filters part by part. */
  lemma FilteredMembersKeepOrder(a: seq<Profile>, b: seq<Profile>, search: string, selectedRole: string)
    ensures FilteredMembers(a + b, search, selectedRole) ==
            FilteredMembers(a, search, selectedRole) + FilteredMembers(b, search, selectedRole)
  {
    FilterConcat(a, b, m => MemberMatches(m, search, selectedRole));
  }

  /** With no search and the `all` role every member is listed, since every member has an email. */
  lemma NoFiltersListsAll(members: seq<Profile>)
    ensures FilteredMembers(members, "", "all") == members
  {
    assert ToLower("") == "";
    forall i | 0 <= i < |members| ensures MemberMatches(members[i], "", "all") {
      IncludesEmpty(ToLower(members[i].email));
    }
    FilterKeepsAll(members, m => MemberMatches(m, "", "all"));
  }

  /** `teamMembers.filter(m => m.role === role).length`. */
  function RoleCount(members: seq<Profile>, role: string): (n: nat)
    ensures n <= |members|
  {
    |Filter(members, (m: Profile) => Is(m.role, role))|
  }

  datatype Stats = Stats(total: nat, admins: nat, managers: nat, active: nat)

  /** The Active card's test: `m.status === 'active'`. */
  predicate IsActive(m: Profile) {
    Is(m.status, "active")
  }

  /** The stat cards, computed on the whole list rather than the filtered one. */
  function TeamStats(members: seq<Profile>): (s: Stats)
    ensures s.total == |members|
    ensures s.admins <= s.total && s.managers <= s.total && s.active <= s.total
    ensures s.admins + s.managers <= s.total
    ensures s.admins == RoleCount(members, Admin) && s.managers == RoleCount(members, Manager)
    ensures s.active == |Filter(members, IsActive)|
  {
    var isAdmin := (m: Profile) => Is(m.role, Admin);
    var isManager := (m: Profile) => Is(m.role, Manager);
    FilterDisjointCounts(members, isAdmin, isManager, (m: Profile) => isAdmin(m) || isManager(m));
    Stats(|members|, RoleCount(members, Admin), RoleCount(members, Manager),
          |Filter(members, IsActive)|)
  }

  /** Add Member, the member menu and the edit controls appear for admins only. */
  predicate ShowsAdminControls(userRole: Option<string>) {
    Is(userRole, Admin)
  }

  const AdjustFiltersText: string := "Try adjusting your search or filters"
  const InviteText: string := "Start by inviting team members to your workspace"

  /** The empty state's hint. */
  function EmptyStateText(search: string, selectedRole: string): (t: string)
    ensures t == AdjustFiltersText <==> search != "" || selectedRole != "all"
    ensures !(search != "" || selectedRole != "all") ==> t == InviteText
  {
    if search != "" || selectedRole != "all" then AdjustFiltersText else InviteText
  }

  /** The invitation hint shows only when the list itself is empty. */
  lemma InviteHintOnlyForEmptyTeam(members: seq<Profile>, search: string, selectedRole: string)
    requires FilteredMembers(members, search, selectedRole) == []
    requires EmptyStateText(search, selectedRole) == InviteText
    ensures members == []
  {
    NoFiltersListsAll(members);
  }
}
