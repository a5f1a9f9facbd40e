/**
 * `ProjectDetailPage`: the three reads that fill the page (the project, its
 * tasks, its members with their profiles), stopping at a failed project read;
 * the mappings of tasks and members; the completed count and hour sums; the
 * admin/manager controls; and the choice between skeleton, not-found and the
 * details. Read results are parameters.
 */
module ProjectDetailPage {
  import opened Outcomes
  import opened Lists
  import opened Records

  /** The member card's data, taken from the membership row and its joined profile. */
  datatype TeamMember = TeamMember(
    id: Option<string>,
    full_name: Option<string>,
    email: Option<string>,
    role: Option<string>,
    avatar_url: Option<string>)

  /** `{ ...task, assignee_id: task.assignee_id || null }`: an empty or missing assignee id becomes null. */
  function MapTask(t: Task): (r: Task)
    ensures r.assignee_id.None? <==> t.assignee_id.None? || t.assignee_id == Some("")
    ensures r.assignee_id.Some? ==> r.assignee_id == t.assignee_id
    ensures r.(assignee_id := t.assignee_id) == t
  {
    if t.assignee_id == Some("") then t.(assignee_id := None) else t
  }

  /** `(tasksData || []).map(...)`: one task per row, in order. */
  function MapTasks(rows: Option<seq<Task>>): (r: seq<Task>)
    ensures rows.None? ==> r == []
    ensures rows.Some? ==> |r| == |rows.value| && forall i :: 0 <= i < |r| ==> r[i] == MapTask(rows.value[i])
  {
    match rows
    case None => []
    case Some(ts) => seq(|ts|, i requires 0 <= i < |ts| => MapTask(ts[i]))
  }

  /** The card for one membership row: the role from the row, everything else from the joined profile. */
  function FormatMember(m: ProjectMember): (r: TeamMember)
    ensures r.role == m.role
    ensures m.profile.None? ==> r == TeamMember(None, None, None, m.role, None)
    ensures m.profile.Some? ==>
      && r.id == Some(m.profile.value.id) && r.email == Some(m.profile.value.email)
      && r.full_name == m.profile.value.full_name && r.avatar_url == m.profile.value.avatar_url
  {
    match m.profile
    case None => TeamMember(None, None, None, m.role, None)
    case Some(p) => TeamMember(Some(p.id), p.full_name, Some(p.email), m.role, p.avatar_url)
  }

  /** `membersData?.map(...) || []`. */
  function FormatMembers(rows: Option<seq<ProjectMember>>): (r: seq<TeamMember>)
    ensures rows.None? ==> r == []
    ensures rows.Some? ==> |r| == |rows.value| && forall i :: 0 <= i < |r| ==> r[i] == FormatMember(rows.value[i])
  {
    match rows
    case None => []
    case Some(ms) => seq(|ms|, i requires 0 <= i < |ms| => FormatMember(ms[i]))
  }

  // ---------------------------------------------------------------------
  // Figures
  // ---------------------------------------------------------------------

  function IsCompleted(t: Task): bool {
    Is(t.status, "completed")
  }

  /** `tasks.filter(t => t.status === 'completed').length`. */
  function CompletedTasks(tasks: seq<Task>): (n: nat)
    ensures n <= |tasks|
    ensures n == |tasks| <==> forall i :: 0 <= i < |tasks| ==> IsCompleted(tasks[i])
  {
    CompletedAll(tasks);
    |Filter(tasks, IsCompleted)|
  }

  /** The filter keeps every task exactly when every task is completed. */
  lemma {:induction false} CompletedAll(tasks: seq<Task>)
    ensures |Filter(tasks, IsCompleted)| == |tasks| <==> forall i :: 0 <= i < |tasks| ==> IsCompleted(tasks[i])
    decreases |tasks|
  {
    if tasks != [] {
      CompletedAll(tasks[1..]);
      assert forall i :: 1 <= i < |tasks| ==> tasks[i] == tasks[1..][i - 1];
    }
  }

  function EstimatedOf(t: Task): real {
    t.estimated_hours.GetOr(0.0)
  }

  function ActualOf(t: Task): real {
    t.actual_hours.GetOr(0.0)
  }

  function HasEstimate(t: Task): bool {
    t.estimated_hours.Some?
  }

  function HasActual(t: Task): bool {
    t.actual_hours.Some?
  }

  /** `tasks.reduce((sum, task) => sum + (task.estimated_hours || 0), 0)`. */
  function TotalHours(tasks: seq<Task>): (h: real)
    ensures (forall i :: 0 <= i < |tasks| ==> tasks[i].estimated_hours.None?) ==> h == 0.0
    ensures (forall i :: 0 <= i < |tasks| ==> 0.0 <= EstimatedOf(tasks[i])) ==> 0.0 <= h
  {
    SumSigns(tasks, EstimatedOf);
    Sum(tasks, EstimatedOf)
  }

  /** `tasks.reduce((sum, task) => sum + (task.actual_hours || 0), 0)`. */
  function ActualHours(tasks: seq<Task>): (h: real)
    ensures (forall i :: 0 <= i < |tasks| ==> tasks[i].actual_hours.None?) ==> h == 0.0
    ensures (forall i :: 0 <= i < |tasks| ==> 0.0 <= ActualOf(tasks[i])) ==> 0.0 <= h
  {
    SumSigns(tasks, ActualOf);
    Sum(tasks, ActualOf)
  }

  /**
   * Both sums add up task by task: a single task contributes its own hours
   * (0 when none are recorded), and the sum over two lists is the sum of their sums.
   */
  lemma HoursAdditive(a: seq<Task>, b: seq<Task>, t: Task)
    ensures TotalHours([t]) == EstimatedOf(t) && ActualHours([t]) == ActualOf(t)
    ensures TotalHours(a + b) == TotalHours(a) + TotalHours(b)
    ensures ActualHours(a + b) == ActualHours(a) + ActualHours(b)
  {
    assert [t][1..] == [];
    assert Sum([t], EstimatedOf) == EstimatedOf(t) + Sum([], EstimatedOf);
    assert Sum([t], ActualOf) == ActualOf(t) + Sum([], ActualOf);
    SumConcat(a, b, EstimatedOf);
    SumConcat(a, b, ActualOf);
  }

  /** Tasks without an estimate or without actual hours add nothing to the respective sum. */
  lemma HoursCountOnlyRecordedValues(tasks: seq<Task>)
    ensures TotalHours(tasks) == TotalHours(Filter(tasks, HasEstimate))
    ensures ActualHours(tasks) == ActualHours(Filter(tasks, HasActual))
  {
    SumSkipsZeros(tasks, EstimatedOf, HasEstimate);
    SumSkipsZeros(tasks, ActualOf, HasActual);
  }

  /** With every estimate between 0 and `h` hours, the total lies between 0 and `h` per task. */
  lemma TotalHoursBounds(tasks: seq<Task>, h: real)
    requires forall i :: 0 <= i < |tasks| ==> 0.0 <= EstimatedOf(tasks[i]) <= h
    ensures 0.0 <= TotalHours(tasks) <= h * |tasks| as real
  {
    SumBounds(tasks, EstimatedOf, 0.0, h);
  }

  /** The recent-activity list: `tasks.slice(0, 3)`. */
  function RecentActivity(tasks: seq<Task>): (r: seq<Task>)
    ensures |r| <= 3 && |r| <= |tasks| && r == tasks[..|r|]
    ensures |tasks| <= 3 ==> r == tasks
    ensures |r| == if |tasks| < 3 then |tasks| else 3
  {
    Take(tasks, 3)
  }

  /** The activity line says "completed" for a completed task and "updated" otherwise. */
  function ActivityVerb(t: Task): (r: string)
    ensures r == "completed" <==> IsCompleted(t)
    ensures !IsCompleted(t) ==> r == "updated"
  {
    if IsCompleted(t) then "completed" else "updated"
  }

  /** Edit Project, Add Task and Add Member show for admins and managers only. */
  predicate CanEdit(role: Option<string>) {
    role == Some(Admin) || role == Some(Manager)
  }

  // ---------------------------------------------------------------------
  // Page state
  // ---------------------------------------------------------------------

  datatype View = Skeleton | NotFound | Details(project: Project)

  /** The skeleton while loading; then the not-found view without a project; then the details. */
  function Render(loading: bool, project: Option<Project>): (v: View)
    ensures v.Skeleton? <==> loading
    ensures v.NotFound? <==> !loading && project.None?
    ensures v.Details? ==> project == Some(v.project)
  {
    if loading then Skeleton
    else if project.None? then NotFound
    else Details(project.value)
  }

  class DetailState {
    var project: Option<Project>
    var tasks: seq<Task>
    var teamMembers: seq<TeamMember>
    var loading: bool
    var failureShown: bool

    constructor ()
      ensures project.None? && tasks == [] && teamMembers == [] && loading && !failureShown
    {
      project := None;
      tasks := [];
      teamMembers := [];
      loading := true;
      failureShown := false;
    }

    /**
     * `fetchProjectDetails`: a failed project read (no row, or an error)
     * throws before the reads of tasks and members, so nothing but the failure
     * notice and `loading` changes; otherwise the project, the mapped tasks
     * and the mapped members are stored. Loading ends either way.
     */
    method FetchProjectDetails(projectRead: Result<Project, string>,
                               tasksData: Option<seq<Task>>, membersData: Option<seq<ProjectMember>>)
      modifies this
      ensures !loading
      ensures projectRead.Err? ==>
        project == old(project) && tasks == old(tasks) && teamMembers == old(teamMembers) && failureShown
      ensures projectRead.Ok? ==>
        && project == Some(projectRead.value)
        && tasks == MapTasks(tasksData)
        && teamMembers == FormatMembers(membersData)
        && failureShown == old(failureShown)
    {
      if projectRead.Err? {
        failureShown := true;
      } else {
        project := Some(projectRead.value);
        tasks := MapTasks(tasksData);
        teamMembers := FormatMembers(membersData);
      }
      loading := false;
    }

    /** The effect on mount: the details are fetched only when the route carries an id. */
    method Mount(id: string, projectRead: Result<Project, string>,
                 tasksData: Option<seq<Task>>, membersData: Option<seq<ProjectMember>>)
      modifies this
      ensures id == "" ==>
        && project == old(project) && tasks == old(tasks) && teamMembers == old(teamMembers)
        && loading == old(loading) && failureShown == old(failureShown)
      ensures id != "" ==> !loading
      ensures id != "" && projectRead.Err? ==>
        project == old(project) && tasks == old(tasks) && teamMembers == old(teamMembers) && failureShown
      ensures id != "" && projectRead.Ok? ==>
        && project == Some(projectRead.value)
        && tasks == MapTasks(tasksData)
        && teamMembers == FormatMembers(membersData)
        && failureShown == old(failureShown)
    {
      if id != "" {
        FetchProjectDetails(projectRead, tasksData, membersData);
      }
    }
  }

  /** On a first load whose project read fails, the page ends on the not-found view with no tasks or members. */
  method FailedFirstLoad(message: string) returns (v: View, tasks: seq<Task>, members: seq<TeamMember>)
    ensures v == NotFound && tasks == [] && members == []
  {
    var page := new DetailState();
    page.FetchProjectDetails(Err(message), Some([]), Some([]));
    v := Render(page.loading, page.project);
    tasks, members := page.tasks, page.teamMembers;
  }
}
