/**
 * `TasksPage`: the list of tasks with a search box and status and priority
 * filters, the query's guard and retry count, and the choice of what the page
 * renders. The backend read is a parameter.
 */
module TasksPage {
  import opened Outcomes
  import opened Text
  import opened Lists
  import opened Records

  /** Search on the name or the description (a null description searches as `''`), ignoring case. */
  predicate MatchesSearch(t: Task, search: string) {
    IncludesIgnoringCase(t.name, search) || IncludesIgnoringCase(t.description.GetOr(""), search)
  }

  /** The `filteredTasks` predicate; a null priority matches only `all`. */
  predicate TaskMatches(t: Task, search: string, statusFilter: string, priorityFilter: string) {
    MatchesSearch(t, search) && MatchesFilter(t.status, statusFilter) && MatchesFilter(t.priority, priorityFilter)
  }

  /** `filteredTasks`: the tasks that match, in their fetched order. */
  function FilteredTasks(tasks: seq<Task>, search: string, statusFilter: string, priorityFilter: string)
    : (r: seq<Task>)
    ensures |r| <= |tasks|
    ensures forall i :: 0 <= i < |r| ==> r[i] in tasks && TaskMatches(r[i], search, statusFilter, priorityFilter)
    ensures forall i :: 0 <= i < |tasks| && TaskMatches(tasks[i], search, statusFilter, priorityFilter) ==>
      tasks[i] in r
  {
    Filter(tasks, t => TaskMatches(t, search, statusFilter, priorityFilter))
  }

  /** Filtering keeps the fetched order: a concatenation filters part by part. */
  lemma FilteredTasksKeepOrder(a: seq<Task>, b: seq<Task>, search: string, statusFilter: string, priorityFilter: string)
    ensures FilteredTasks(a + b, search, statusFilter, priorityFilter) ==
            FilteredTasks(a, search, statusFilter, priorityFilter) + FilteredTasks(b, search, statusFilter, priorityFilter)
  {
    FilterConcat(a, b, t => TaskMatches(t, search, statusFilter, priorityFilter));
  }

  /** A task without a priority is listed under no specific priority. */
  lemma NullPriorityOnlyUnderAll(t: Task, search: string, statusFilter: string, priorityFilter: string)
    requires t.priority.None? && priorityFilter != "all"
    ensures !TaskMatches(t, search, statusFilter, priorityFilter)
  {
  }

  /** `hasFilters`: any search text, or a filter other than `all`. */
  predicate HasFilters(search: string, statusFilter: string, priorityFilter: string) {
    search != "" || statusFilter != "all" || priorityFilter != "all"
  }

  /** Without filters every task is listed. */
  lemma NoFiltersListsAll(tasks: seq<Task>, search: string, statusFilter: string, priorityFilter: string)
    requires !HasFilters(search, statusFilter, priorityFilter)
    ensures FilteredTasks(tasks, search, statusFilter, priorityFilter) == tasks
  {
    assert ToLower("") == "";
    forall i | 0 <= i < |tasks| ensures TaskMatches(tasks[i], "", "all", "all") {
      IncludesEmpty(ToLower(tasks[i].name));
    }
    FilterKeepsAll(tasks, t => TaskMatches(t, "", "all", "all"));
  }

  /** The query on tasks waits for authentication to settle. */
  predicate QueryEnabled(authLoading: bool) {
    !authLoading
  }

  /** `retry: 1`: a failed read is retried once. */
  predicate ShouldRetry(failureCount: nat) {
    failureCount < 1
  }

  /** The number of attempts made when every attempt fails, counting from failure `count`. */
  function AttemptsWhenFailing(count: nat): nat
    decreases 1 - count
  {
    if ShouldRetry(count) then AttemptsWhenFailing(count + 1) else count + 1
  }

  /** A failing read is attempted twice. */
  lemma TwoAttempts()
    ensures AttemptsWhenFailing(0) == 2
  {
    assert AttemptsWhenFailing(1) == 2;
  }

  /** `fetchTasks`, given the backend's reply: an error is rethrown with a prefix; null data is an empty list. */
  function FetchTasks(reply: Result<Option<seq<Task>>, string>): (r: Result<seq<Task>, string>)
    ensures reply.Err? ==> r == Err("Failed to fetch tasks: " + reply.error)
    ensures reply.Ok? ==> r == Ok(reply.value.GetOr([]))
  {
    match reply
    case Err(message) => Err("Failed to fetch tasks: " + message)
    case Ok(data) => Ok(data.GetOr([]))
  }

  /** What the page renders; the summary cards always count the filtered list. */
  datatype View =
    | LoadingView(authLoading: bool)
    | ErrorView
    | GanttView(shown: seq<Task>)
    | EmptyView(hasFilters: bool)

  /** The render branch: loading first, then the error, then the chart or the empty state. */
  function Render(authLoading: bool, tasksLoading: bool, isError: bool, tasks: seq<Task>,
                  search: string, statusFilter: string, priorityFilter: string): (v: View)
    ensures authLoading || tasksLoading <==> v.LoadingView?
    ensures v.ErrorView? <==> !authLoading && !tasksLoading && isError
    ensures v.GanttView? ==> v.shown == FilteredTasks(tasks, search, statusFilter, priorityFilter) && v.shown != []
    ensures v.EmptyView? <==>
      !authLoading && !tasksLoading && !isError && FilteredTasks(tasks, search, statusFilter, priorityFilter) == []
    ensures v.EmptyView? ==> v.hasFilters == HasFilters(search, statusFilter, priorityFilter)
  {
    var shown := FilteredTasks(tasks, search, statusFilter, priorityFilter);
    if authLoading || tasksLoading then LoadingView(authLoading)
    else if isError then ErrorView
    else if |shown| > 0 then GanttView(shown)
    else EmptyView(HasFilters(search, statusFilter, priorityFilter))
  }

  /** An empty state without filters means no task was fetched at all. */
  lemma UnfilteredEmptyMeansNoTasks(authLoading: bool, tasksLoading: bool, isError: bool, tasks: seq<Task>,
                                    search: string, statusFilter: string, priorityFilter: string)
    requires Render(authLoading, tasksLoading, isError, tasks, search, statusFilter, priorityFilter) == EmptyView(false)
    ensures tasks == []
  {
    NoFiltersListsAll(tasks, search, statusFilter, priorityFilter);
  }
}
