/** `TaskSummaryCards`: four counts over the tasks it is given. */
module TaskSummaryCards {
  import opened Lists
  import opened Records

  /** The test `t => t.status === status`. */
  function StatusIs(status: string): Task -> bool {
    (t: Task) => Is(t.status, status)
  }

  /** `tasks.filter(t => t.status === status).length`. */
  function CountStatus(tasks: seq<Task>, status: string): (n: nat)
    ensures n <= |tasks|
  {
    |Filter(tasks, StatusIs(status))|
  }

  datatype Summary = Summary(total: nat, completed: nat, inProgress: nat, todo: nat)

  /** The Total, Completed, In Progress and To Do cards. */
  function SummaryCards(tasks: seq<Task>): (s: Summary)
    ensures s.total == |tasks|
    ensures s.completed == CountStatus(tasks, "completed")
    ensures s.inProgress == CountStatus(tasks, "in_progress")
    ensures s.todo == CountStatus(tasks, "todo")
  {
    Summary(|tasks|, CountStatus(tasks, "completed"), CountStatus(tasks, "in_progress"), CountStatus(tasks, "todo"))
  }

  /** A task has one status, so counts of three different statuses add up to at most the number of tasks. */
  lemma ThreeStatusesBounded(tasks: seq<Task>, a: string, b: string, c: string)
    requires a != b && b != c && a != c
    ensures CountStatus(tasks, a) + CountStatus(tasks, b) + CountStatus(tasks, c) <= |tasks|
  {
    var either := (t: Task) => StatusIs(a)(t) || StatusIs(b)(t);
    var any := (t: Task) => either(t) || StatusIs(c)(t);
    FilterDisjointCounts(tasks, StatusIs(a), StatusIs(b), either);
    FilterDisjointCounts(tasks, either, StatusIs(c), any);
  }

  /** The three status cards add up to at most the Total card. */
  lemma StatusCardsWithinTotal(tasks: seq<Task>)
    ensures var s := SummaryCards(tasks); s.completed + s.inProgress + s.todo <= s.total
  {
    ThreeStatusesBounded(tasks, "completed", "in_progress", "todo");
  }
}
