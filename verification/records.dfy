/**
 * The rows the dashboard reads from its backend tables. A column that may be
 * null is an `Option`; `None` is null (or a column the row does not carry).
 */
module Records {
  import opened Outcomes

  /** A row of `projects`. */
  datatype Project = Project(
    id: string,
    name: string,
    description: Option<string>,
    status: Option<string>,
    priority: Option<string>,
    progress: Option<real>,
    start_date: Option<string>,
    end_date: Option<string>,
    budget: Option<real>,
    color: Option<string>,
    owner_id: string)

  /**
   * A row of `tasks`. `assignee_id` is not a column of the table: pages that
   * read it find it missing unless a row carries it.
   */
  datatype Task = Task(
    id: string,
    name: string,
    description: Option<string>,
    status: Option<string>,
    priority: Option<string>,
    progress: real,
    start_date: string,
    end_date: string,
    estimated_hours: Option<real>,
    actual_hours: Option<real>,
    assignee: Option<string>,
    assignee_id: Option<string>,
    project_id: Option<string>,
    color: string)

  /**
   * A row of `profiles`. `workload` and `status` are not columns of the table
   * either; the pages that list profiles read them defensively.
   */
  datatype Profile = Profile(
    id: string,
    email: string,
    full_name: Option<string>,
    role: Option<string>,
    department: Option<string>,
    position: Option<string>,
    avatar_url: Option<string>,
    workload: Option<real>,
    status: Option<string>)

  /** A row of `project_members`, with the member's profile joined in when the query asks for it. */
  datatype ProjectMember = ProjectMember(
    id: string,
    project_id: string,
    user_id: string,
    role: Option<string>,
    profile: Option<Profile>)

  const Admin: string := "admin"
  const Manager: string := "manager"
  const Member: string := "member"

  /** `x === value` where `x` may be null: null equals no string. */
  predicate Is(x: Option<string>, value: string) {
    x == Some(value)
  }

  /** `filter === 'all' || x === filter`: the select boxes' "all" matches anything, null included. */
  predicate MatchesFilter(x: Option<string>, filter: string) {
    filter == "all" || Is(x, filter)
  }
}
