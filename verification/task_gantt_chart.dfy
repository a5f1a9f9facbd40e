/**
 * `TaskGanttChart`: one bar per task, placed by its offset in days from the
 * earliest start date and sized by its inclusive length in days. Dates are
 * `YYYY-MM-DD` strings; an invalid date makes the day counts NaN (None).
 */
module TaskGanttChart {
  import opened Outcomes
  import opened Text
  import opened IsoDate
  import opened Records

  /**
   * The `reduce` that picks the earliest start: `t.start_date < earliest ? t.start_date : earliest`
   * over `tasks`, starting from `earliest`.
   */
  function EarliestFrom(earliest: string, tasks: seq<Task>): (r: string)
    ensures r == earliest || exists t :: t in tasks && r == t.start_date
    decreases |tasks|
  {
    if tasks == [] then earliest
    else
      var next := if LexLess(tasks[0].start_date, earliest) then tasks[0].start_date else earliest;
      EarliestFrom(next, tasks[1..])
  }

  /** The reduce never ends above its start or above any task's start. */
  lemma {:induction false} EarliestIsMinimal(earliest: string, tasks: seq<Task>)
    ensures !LexLess(earliest, EarliestFrom(earliest, tasks))
    ensures forall i :: 0 <= i < |tasks| ==> !LexLess(tasks[i].start_date, EarliestFrom(earliest, tasks))
    decreases |tasks|
  {
    if tasks == [] {
      LexLessIrreflexive(earliest);
    } else {
      var next := if LexLess(tasks[0].start_date, earliest) then tasks[0].start_date else earliest;
      var r := EarliestFrom(next, tasks[1..]);
      assert EarliestFrom(earliest, tasks) == r;
      EarliestIsMinimal(next, tasks[1..]);
      if LexLess(earliest, r) {
        if LexLess(tasks[0].start_date, earliest) {
          LexLessTransitive(next, earliest, r);
        }
      }
      if LexLess(tasks[0].start_date, r) {
        if !LexLess(tasks[0].start_date, earliest) {
          LexLessTotal(tasks[0].start_date, earliest);
          if earliest != tasks[0].start_date {
            LexLessTransitive(earliest, tasks[0].start_date, r);
          }
        }
      }
      forall i | 1 <= i < |tasks| ensures !LexLess(tasks[i].start_date, r) {
        assert tasks[i] == tasks[1..][i - 1];
      }
    }
  }

  /** The earliest start date among the tasks, as the chart computes it. */
  function EarliestStart(tasks: seq<Task>): (r: string)
    requires |tasks| > 0
    ensures exists t :: t in tasks && r == t.start_date
    ensures forall i :: 0 <= i < |tasks| ==> !LexLess(tasks[i].start_date, r)
  {
    EarliestIsMinimal(tasks[0].start_date, tasks);
    EarliestFrom(tasks[0].start_date, tasks)
  }

  /** A bar: a task, its offset from the earliest start and its length, in days. */
  datatype GanttRow = GanttRow(task: Task, startDay: Option<int>, duration: Option<int>)

  /** `differenceInDays(end, start) + 1`, NaN staying NaN. */
  function Duration(t: Task): (d: Option<int>)
    ensures d.Some? <==> Day(t.start_date).Some? && Day(t.end_date).Some?
    ensures d.Some? ==> d.value == Day(t.end_date).value - Day(t.start_date).value + 1
    ensures d.Some? ==> (d.value == 1 <==> t.start_date == t.end_date)
    ensures d.Some? ==> (d.value >= 1 <==> !LexLess(t.end_date, t.start_date))
  {
    match DifferenceInDays(t.end_date, t.start_date)
    case None => None
    case Some(n) => Some(n + 1)
  }

  /** `ganttData`: one row per task, in order, each measured from the earliest start. */
  function GanttData(tasks: seq<Task>): (rows: seq<GanttRow>)
    ensures |rows| == |tasks|
    ensures forall i :: 0 <= i < |tasks| ==>
      && rows[i].task == tasks[i]
      && rows[i].startDay == DifferenceInDays(tasks[i].start_date, EarliestStart(tasks))
      && rows[i].duration == Duration(tasks[i])
  {
    if tasks == [] then []
    else
      var earliest := EarliestStart(tasks);
      seq(|tasks|, i requires 0 <= i < |tasks| =>
        GanttRow(tasks[i], DifferenceInDays(tasks[i].start_date, earliest), Duration(tasks[i])))
  }

  /**
   * No bar starts before the axis: every measured offset is at least 0, and it
   * is 0 exactly for the tasks that start on the earliest date.
   */
  lemma StartDaysFromEarliest(tasks: seq<Task>, i: nat)
    requires i < |tasks|
    ensures GanttData(tasks)[i].startDay.Some? ==>
      GanttData(tasks)[i].startDay.value == Day(tasks[i].start_date).value - Day(EarliestStart(tasks)).value
    ensures GanttData(tasks)[i].startDay.Some? ==> GanttData(tasks)[i].startDay.value >= 0
    ensures GanttData(tasks)[i].startDay.Some? ==>
      (GanttData(tasks)[i].startDay.value == 0 <==> tasks[i].start_date == EarliestStart(tasks))
  {
  }

  /** When every start date is valid, some task starts on day 0. */
  lemma SomeTaskOnDayZero(tasks: seq<Task>)
    requires |tasks| > 0
    requires forall i :: 0 <= i < |tasks| ==> Day(tasks[i].start_date).Some?
    ensures exists i :: 0 <= i < |tasks| && GanttData(tasks)[i].startDay == Some(0)
  {
    var e := EarliestStart(tasks);
    var t :| t in tasks && e == t.start_date;
    var i :| 0 <= i < |tasks| && tasks[i] == t;
    assert GanttData(tasks)[i].startDay == Some(0);
  }

  /** A task that starts and ends on the same valid day is one day long. */
  lemma OneDayTask(t: Task)
    requires t.start_date == t.end_date && Day(t.start_date).Some?
    ensures Duration(t) == Some(1)
  {
  }

  /** A task that ends on the calendar day after it starts is two days long. */
  lemma NextDayTask(t: Task, d: Date)
    requires Valid(d) && d.year < 9999
    requires Parse(t.start_date) == Some(d) && Parse(t.end_date) == Some(NextDay(d))
    ensures Duration(t) == Some(2)
  {
    NextDayNumber(d);
  }

  const DefaultStatusColor: string := "#6B7280"

  /** `getStatusColor`: completed, in_progress and review have their own colours; anything else is grey. */
  function StatusColor(status: string): (c: string)
    ensures status == "completed" ==> c == "#10B981"
    ensures status == "in_progress" ==> c == "#F59E0B"
    ensures status == "review" ==> c == "#8B5CF6"
    ensures status !in {"completed", "in_progress", "review"} ==> c == DefaultStatusColor
  {
    if status == "completed" then "#10B981"
    else if status == "in_progress" then "#F59E0B"
    else if status == "review" then "#8B5CF6"
    else DefaultStatusColor
  }
}
