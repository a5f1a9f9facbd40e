/**
 * `Dashboard`: which projects a role sees, the four stat cards, and the
 * recent-project and recent-task slices. The backend reads are parameters: the
 * whole `projects` table, the project ids of the user's `project_members`
 * rows, the `tasks` table newest first, and the profile count.
 */
module Dashboard {
  import opened Outcomes
  import opened Numbers
  import opened Lists
  import opened Records

  // ---------------------------------------------------------------------
  // Visibility
  // ---------------------------------------------------------------------

  /** `.in('id', ids)`: the project's id is one of `ids`. */
  function IdIn(ids: seq<string>): Project -> bool {
    (p: Project) => p.id in ids
  }

  /** `.or('owner_id.eq.<user>,id.in.(<ids>)')`: owned by the user or assigned to them. */
  function OwnedOrIn(userId: Option<string>, ids: seq<string>): Project -> bool {
    (p: Project) => Some(p.owner_id) == userId || p.id in ids
  }

  /** `res.data?.map(p => p.project_id) || []`: no rows when the read returns no data. */
  function AssignedIds(rows: Option<seq<string>>): seq<string> {
    rows.GetOr([])
  }

  /**
   * The projects the dashboard reads for `role`: a member sees the projects it
   * is assigned to, a manager those it owns or is assigned to, and every other
   * role (admin, or a role not loaded yet) the whole table. The order of the
   * table is kept.
   */
  function VisibleProjects(role: Option<string>, userId: Option<string>, ids: seq<string>,
                           allProjects: seq<Project>): (r: seq<Project>)
    ensures |r| <= |allProjects|
    ensures role == Some(Member) ==>
      forall p :: p in r <==> p in allProjects && p.id in ids
    ensures role == Some(Manager) ==>
      forall p :: p in r <==> p in allProjects && (Some(p.owner_id) == userId || p.id in ids)
    ensures role != Some(Member) && role != Some(Manager) ==> r == allProjects
  {
    if role == Some(Member) then Filter(allProjects, IdIn(ids))
    else if role == Some(Manager) then Filter(allProjects, OwnedOrIn(userId, ids))
    else allProjects
  }

  /** A manager sees everything a member with the same assignments sees, and more only through ownership. */
  lemma {:induction false} ManagerSeesMoreThanMember(userId: Option<string>, ids: seq<string>, allProjects: seq<Project>)
    ensures |VisibleProjects(Some(Member), userId, ids, allProjects)| <= |VisibleProjects(Some(Manager), userId, ids, allProjects)|
    decreases |allProjects|
  {
    if allProjects != [] {
      ManagerSeesMoreThanMember(userId, ids, allProjects[1..]);
    }
  }

  // ---------------------------------------------------------------------
  // Stats
  // ---------------------------------------------------------------------

  datatype DashboardStats = DashboardStats(
    totalProjects: nat,
    activeProjects: nat,
    completedTasks: nat,
    totalTasks: nat,
    teamMembers: nat,
    avgProgress: real)

  const InitialStats: DashboardStats := DashboardStats(0, 0, 0, 0, 0, 0.0)

  function StatusIs(status: string): Task -> bool {
    (t: Task) => Is(t.status, status)
  }

  function ProjectStatusIs(status: string): Project -> bool {
    (p: Project) => Is(p.status, status)
  }

  function ProgressOf(p: Project): real {
    p.progress.GetOr(0.0)
  }

  /** `projects?.length ? sum of (p.progress || 0) / projects.length : 0`. */
  function AverageProgress(projects: Option<seq<Project>>): (r: real)
    ensures projects.None? || projects.value == [] ==> r == 0.0
    ensures projects.Some? && |projects.value| > 0 ==>
      r * |projects.value| as real == Sum(projects.value, ProgressOf)
  {
    match projects
    case Some(ps) => if |ps| > 0 then Sum(ps, ProgressOf) / |ps| as real else 0.0
    case None => 0.0
  }

  /** `xs?.length || 0`. */
  function LengthOr0<T>(xs: Option<seq<T>>): (n: nat)
    ensures xs.None? ==> n == 0
    ensures xs.Some? ==> n == |xs.value|
  {
    match xs
    case Some(v) => |v|
    case None => 0
  }

  /** `xs?.filter(p).length || 0`. */
  function CountOr0<T>(xs: Option<seq<T>>, p: T -> bool): (n: nat)
    ensures n <= LengthOr0(xs)
    ensures xs.None? ==> n == 0
  {
    match xs
    case Some(v) => |Filter(v, p)|
    case None => 0
  }

  /** The cards for what the reads returned (None for no data). */
  function Stats(projects: Option<seq<Project>>, tasks: Option<seq<Task>>, teamCount: Option<nat>): (s: DashboardStats)
    ensures s.activeProjects <= s.totalProjects && s.completedTasks <= s.totalTasks
    ensures projects.None? ==> s.totalProjects == 0 && s.activeProjects == 0 && s.avgProgress == 0.0
    ensures projects.Some? ==> s.totalProjects == |projects.value|
    ensures tasks.None? ==> s.totalTasks == 0 && s.completedTasks == 0
    ensures s.teamMembers == if teamCount.Some? then teamCount.value else 0
    ensures projects.Some? ==> s.activeProjects == |Filter(projects.value, ProjectStatusIs("active"))|
    ensures tasks.Some? ==>
      s.totalTasks == |tasks.value| && s.completedTasks == |Filter(tasks.value, StatusIs("completed"))|
    ensures s.avgProgress == Round(Finite(AverageProgress(projects))).value
  {
    DashboardStats(
      LengthOr0(projects),
      CountOr0(projects, ProjectStatusIs("active")),
      CountOr0(tasks, StatusIs("completed")),
      LengthOr0(tasks),
      teamCount.GetOr(0),
      Round(Finite(AverageProgress(projects))).value)
  }

  /**
   * The stats are consistent: active projects within the total, completed
   * tasks within the total, every figure 0 when its read returned nothing,
   * and the average progress a whole number in [0, 100] when each project's
   * progress is.
   */
  lemma StatsConsistent(projects: Option<seq<Project>>, tasks: Option<seq<Task>>, teamCount: Option<nat>)
    requires projects.Some? ==> forall i :: 0 <= i < |projects.value| ==> 0.0 <= ProgressOf(projects.value[i]) <= 100.0
    ensures var s := Stats(projects, tasks, teamCount);
      && s.activeProjects <= s.totalProjects
      && s.completedTasks <= s.totalTasks
      && (projects.None? ==> s.totalProjects == 0 && s.activeProjects == 0 && s.avgProgress == 0.0)
      && (tasks.None? ==> s.totalTasks == 0 && s.completedTasks == 0)
      && (teamCount.None? ==> s.teamMembers == 0)
      && 0.0 <= s.avgProgress <= 100.0
      && s.avgProgress == s.avgProgress.Floor as real
  {
    var avg := AverageProgress(projects);
    if projects.Some? && |projects.value| > 0 {
      MeanBounds(projects.value, ProgressOf, 0.0, 100.0);
    }
    RoundWithin(avg, 0, 100);
  }

  /** The New Project button shows for admins and managers. */
  predicate ShowsNewProjectButton(role: Option<string>) {
    role == Some(Admin) || role == Some(Manager)
  }

  /** `userProfile?.full_name || 'User'`. */
  function GreetingName(profile: Option<Profile>): (r: string)
    ensures r != []
    ensures profile.Some? && profile.value.full_name.Some? && profile.value.full_name.value != [] ==>
      r == profile.value.full_name.value
    ensures !(profile.Some? && profile.value.full_name.Some? && profile.value.full_name.value != []) ==> r == "User"
  {
    if profile.Some? && profile.value.full_name.Some? && profile.value.full_name.value != [] then
      profile.value.full_name.value
    else "User"
  }

  // ---------------------------------------------------------------------
  // The page state
  // ---------------------------------------------------------------------

  class DashboardView {
    var stats: DashboardStats
    var recentProjects: seq<Project>
    var recentTasks: seq<Task>
    var loading: bool

    constructor ()
      ensures stats == InitialStats && recentProjects == [] && recentTasks == [] && loading
    {
      stats := InitialStats;
      recentProjects := [];
      recentTasks := [];
      loading := true;
    }

    /**
     * `fetchDashboardData`. The project query starts as the whole table and is
     * narrowed for members and managers; `projectsRead` says whether it
     * returned data and `tasksRead` whether the query on tasks did (which reads at
     * most the ten newest tasks).
     */
    method FetchDashboardData(role: Option<string>, userId: Option<string>, memberRows: Option<seq<string>>,
                              allProjects: seq<Project>, projectsRead: bool,
                              newestTasks: seq<Task>, tasksRead: bool, teamCount: Option<nat>)
      modifies this
      ensures var projects := if projectsRead then Some(VisibleProjects(role, userId, AssignedIds(memberRows), allProjects)) else None;
        var tasks := if tasksRead then Some(Take(newestTasks, 10)) else None;
        && stats == Stats(projects, tasks, teamCount)
        && recentProjects == (if projectsRead then Take(projects.value, 5) else [])
        && recentTasks == (if tasksRead then Take(tasks.value, 5) else [])
        && !loading
    {
      var query := allProjects;
      if role == Some(Member) {
        query := Filter(allProjects, IdIn(AssignedIds(memberRows)));
      } else if role == Some(Manager) {
        query := Filter(allProjects, OwnedOrIn(userId, AssignedIds(memberRows)));
      }
      var projects: Option<seq<Project>> := if projectsRead then Some(query) else None;
      var tasks: Option<seq<Task>> := if tasksRead then Some(Take(newestTasks, 10)) else None;
      stats := Stats(projects, tasks, teamCount);
      recentProjects := if projectsRead then Take(query, 5) else [];
      recentTasks := if tasksRead then Take(tasks.value, 5) else [];
      loading := false;
    }
  }

  /** The recent slices are the first few items of their lists, in order, and never more than five. */
  lemma RecentSlices(projects: seq<Project>, tasks: seq<Task>)
    ensures Take(projects, 5) == projects[..if |projects| < 5 then |projects| else 5]
    ensures Take(Take(tasks, 10), 5) == Take(tasks, 5)
  {
  }
}
