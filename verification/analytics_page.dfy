/**
 * `AnalyticsPage`: project and task counts, the overdue rule, the group-by
 * dictionaries behind the status and priority charts, the chart entries, the
 * zero-guarded rates, and the rule that the figures are replaced only when all
 * three reads return data. Reads are parameters; "now" is a parameter.
 */
module AnalyticsPage {
  import opened Outcomes
  import opened Text
  import opened Numbers
  import opened IsoDate
  import opened Lists
  import opened Records

  // ---------------------------------------------------------------------
  // Grouping into a dictionary
  // ---------------------------------------------------------------------

  /**
   * A `Record<string, number>` of counts: the values by key, and the keys in
   * the order they were first set, which is the order `Object.entries` lists
   * them in.
   */
  datatype Tallies = Tallies(counts: map<string, nat>, order: seq<string>)

  /** `acc[k] = (acc[k] || 0) + 1`. */
  function Bump(t: Tallies, k: string): Tallies {
    if k in t.counts then Tallies(t.counts[k := t.counts[k] + 1], t.order)
    else Tallies(t.counts[k := 1], t.order + [k])
  }

  /** The dictionary `xs.reduce` builds when it bumps the key of each element in turn, starting from `{}`. */
  function Tally<T>(xs: seq<T>, key: T -> string): Tallies
    decreases |xs|
  {
    if xs == [] then Tallies(map[], [])
    else Bump(Tally(xs[..|xs| - 1], key), key(xs[|xs| - 1]))
  }

  /** The reduce, bumping a dictionary in place element by element. */
  method CountBy<T>(xs: seq<T>, key: T -> string) returns (counts: map<string, nat>, order: seq<string>)
    ensures Tallies(counts, order) == Tally(xs, key)
  {
    counts, order := map[], [];
    var i := 0;
    while i < |xs|
      invariant 0 <= i <= |xs|
      invariant Tallies(counts, order) == Tally(xs[..i], key)
    {
      var k := key(xs[i]);
      assert xs[..i + 1][..i] == xs[..i];
      if k in counts {
        counts := counts[k := counts[k] + 1];
      } else {
        counts := counts[k := 1];
        order := order + [k];
      }
      i := i + 1;
    }
    assert xs[..|xs|] == xs;
  }

  /** The test `key(x) === k`, as one named predicate so every use of it is the same function. */
  function HasKey<T>(key: T -> string, k: string): T -> bool {
    x => key(x) == k
  }

  /** How many elements have key `k`. */
  function CountOf<T>(xs: seq<T>, key: T -> string, k: string): nat {
    |Filter(xs, HasKey(key, k))|
  }

  /** The value stored under `k`, 0 when `k` was never set. */
  function ValueAt(t: Tallies, k: string): nat {
    if k in t.counts then t.counts[k] else 0
  }

  /**
   * The value under each key is the number of elements with that key, and a
   * key is set exactly when some element has it.
   */
  lemma {:induction false} TallyCountsAt<T>(xs: seq<T>, key: T -> string, k: string)
    ensures ValueAt(Tally(xs, key), k) == CountOf(xs, key, k)
    ensures k in Tally(xs, key).counts <==> CountOf(xs, key, k) > 0
    decreases |xs|
  {
    if xs != [] {
      var init := xs[..|xs| - 1];
      var x := xs[|xs| - 1];
      TallyCountsAt(init, key, k);
      assert xs == init + [x];
      FilterSnoc(init, x, HasKey(key, k));
    }
  }

  /** Each key is listed once, and the listed keys are exactly the dictionary's keys. */
  ghost predicate WellKept(t: Tallies) {
    && (forall i, j :: 0 <= i < j < |t.order| ==> t.order[i] != t.order[j])
    && (forall k :: k in t.counts <==> k in t.order)
  }

  /** `Object.entries` lists each key of the dictionary exactly once. */
  lemma {:induction false} TallyWellKept<T>(xs: seq<T>, key: T -> string)
    ensures WellKept(Tally(xs, key))
    decreases |xs|
  {
    if xs != [] {
      TallyWellKept(xs[..|xs| - 1], key);
    }
  }

  /** The sum of the values listed under `order`. */
  function SumOver(order: seq<string>, counts: map<string, nat>): nat {
    if order == [] then 0
    else (if order[0] in counts then counts[order[0]] else 0) + SumOver(order[1..], counts)
  }

  /** Changing a value not listed leaves the sum alone. */
  lemma {:induction false} SumOverUnlisted(order: seq<string>, counts: map<string, nat>, k: string, v: nat)
    requires k !in order
    ensures SumOver(order, counts[k := v]) == SumOver(order, counts)
    decreases |order|
  {
    if order != [] {
      SumOverUnlisted(order[1..], counts, k, v);
    }
  }

  /** Adding one to a value listed once adds one to the sum. */
  lemma {:induction false} SumOverBump(order: seq<string>, counts: map<string, nat>, k: string)
    requires k in counts && k in order
    requires forall i, j :: 0 <= i < j < |order| ==> order[i] != order[j]
    ensures SumOver(order, counts[k := counts[k] + 1]) == SumOver(order, counts) + 1
    decreases |order|
  {
    if order[0] == k {
      assert forall j :: 0 <= j < |order[1..]| ==> order[1..][j] == order[j + 1] != k;
      SumOverUnlisted(order[1..], counts, k, counts[k] + 1);
    } else {
      SumOverBump(order[1..], counts, k);
    }
  }

  /** Appending a key to the list adds its value to the sum. */
  lemma {:induction false} SumOverAppend(order: seq<string>, counts: map<string, nat>, k: string)
    ensures SumOver(order + [k], counts) == SumOver(order, counts) + (if k in counts then counts[k] else 0)
    decreases |order|
  {
    if order == [] {
      assert order + [k] == [k];
    } else {
      assert (order + [k])[1..] == order[1..] + [k];
      SumOverAppend(order[1..], counts, k);
    }
  }

  /** The values of the dictionary add up to the number of elements. */
  lemma {:induction false} TallySum<T>(xs: seq<T>, key: T -> string)
    ensures SumOver(Tally(xs, key).order, Tally(xs, key).counts) == |xs|
    decreases |xs|
  {
    if xs != [] {
      var init := xs[..|xs| - 1];
      var t := Tally(init, key);
      var k := key(xs[|xs| - 1]);
      TallySum(init, key);
      TallyWellKept(init, key);
      if k in t.counts {
        SumOverBump(t.order, t.counts, k);
      } else {
        SumOverUnlisted(t.order, t.counts, k, 1);
        SumOverAppend(t.order, t.counts[k := 1], k);
      }
    }
  }

  /** `acc[project.status]`: a null status is stored under the key `"null"`. */
  function StatusKey(p: Project): (k: string)
    ensures p.status.Some? ==> k == p.status.value
    ensures k == "null" <==> p.status.None? || p.status == Some("null")
  {
    match p.status
    case None => "null"
    case Some(s) => s
  }

  /** `acc[task.priority || 'medium']`: a missing or empty priority counts as medium. */
  function PriorityKey(t: Task): (k: string)
    ensures t.priority.None? || t.priority == Some("") ==> k == "medium"
    ensures t.priority.Some? && t.priority.value != "" ==> k == t.priority.value
  {
    if t.priority.Some? && t.priority.value != "" then t.priority.value else "medium"
  }

  // ---------------------------------------------------------------------
  // Chart entries
  // ---------------------------------------------------------------------

  const FallbackColor: string := "#6B7280"

  /** `COLORS[k] || '#6B7280'`. */
  function ColorOf(k: string): (c: string)
    ensures |c| == 7 && c[0] == '#'
    ensures c == FallbackColor <==> k !in {"active", "completed", "on_hold", "high", "medium", "low"}
    ensures k in {"completed", "low"} <==> c == "#10B981"
    ensures k in {"on_hold", "medium"} <==> c == "#F59E0B"
    ensures k == "active" <==> c == "#3B82F6"
    ensures k == "high" <==> c == "#EF4444"
  {
    if k == "active" then "#3B82F6"
    else if k == "completed" then "#10B981"
    else if k == "planning" then "#6B7280"
    else if k == "on_hold" then "#F59E0B"
    else if k == "high" then "#EF4444"
    else if k == "medium" then "#F59E0B"
    else if k == "low" then "#10B981"
    else FallbackColor
  }

  /** Keys without a colour of their own are drawn grey. */
  lemma ColorFallback(k: string)
    requires k !in {"active", "completed", "planning", "on_hold", "high", "medium", "low"}
    ensures ColorOf(k) == FallbackColor
  {
  }

  datatype ChartEntry = ChartEntry(name: string, value: nat, color: string)

  /** `projectsByStatus`: one entry per key in first-seen order, named with its first `_` turned into a space. */
  function StatusEntries(t: Tallies): (es: seq<ChartEntry>)
    requires forall k :: k in t.order ==> k in t.counts
    ensures |es| == |t.order|
    ensures forall i :: 0 <= i < |es| ==>
      es[i] == ChartEntry(ReplaceFirst(t.order[i], '_', ' '), t.counts[t.order[i]], ColorOf(t.order[i]))
  {
    seq(|t.order|, i requires 0 <= i < |t.order| =>
      ChartEntry(ReplaceFirst(t.order[i], '_', ' '), t.counts[t.order[i]], ColorOf(t.order[i])))
  }

  /** `tasksByPriority`: one entry per key in first-seen order, named by the key. */
  function PriorityEntries(t: Tallies): (es: seq<ChartEntry>)
    requires forall k :: k in t.order ==> k in t.counts
    ensures |es| == |t.order|
    ensures forall i :: 0 <= i < |es| ==> es[i] == ChartEntry(t.order[i], t.counts[t.order[i]], ColorOf(t.order[i]))
  {
    seq(|t.order|, i requires 0 <= i < |t.order| => ChartEntry(t.order[i], t.counts[t.order[i]], ColorOf(t.order[i])))
  }

  /** The sum of the values of chart entries. */
  function EntryTotal(es: seq<ChartEntry>): nat {
    if es == [] then 0 else es[0].value + EntryTotal(es[1..])
  }

  /** Entries carrying the values listed under `order` add up to the listed sum. */
  lemma {:induction false} EntryTotalIsSum(es: seq<ChartEntry>, t: Tallies)
    requires forall k :: k in t.order ==> k in t.counts
    requires |es| == |t.order| && forall i :: 0 <= i < |es| ==> es[i].value == t.counts[t.order[i]]
    ensures EntryTotal(es) == SumOver(t.order, t.counts)
    decreases |es|
  {
    if es != [] {
      EntryTotalIsSum(es[1..], Tallies(t.counts, t.order[1..]));
    }
  }

  /** The status chart's slices add up to the number of projects. */
  lemma StatusChartTotal(projects: seq<Project>)
    ensures var t := Tally(projects, StatusKey);
      (forall k :: k in t.order ==> k in t.counts) && EntryTotal(StatusEntries(t)) == |projects|
  {
    var t := Tally(projects, StatusKey);
    TallyWellKept(projects, StatusKey);
    TallySum(projects, StatusKey);
    EntryTotalIsSum(StatusEntries(t), t);
  }

  /** The priority chart's bars add up to the number of tasks. */
  lemma PriorityChartTotal(tasks: seq<Task>)
    ensures var t := Tally(tasks, PriorityKey);
      (forall k :: k in t.order ==> k in t.counts) && EntryTotal(PriorityEntries(t)) == |tasks|
  {
    var t := Tally(tasks, PriorityKey);
    TallyWellKept(tasks, PriorityKey);
    TallySum(tasks, PriorityKey);
    EntryTotalIsSum(PriorityEntries(t), t);
  }

  // ---------------------------------------------------------------------
  // Counts and rates
  // ---------------------------------------------------------------------

  function CountProjects(projects: seq<Project>, status: string): (n: nat)
    ensures n <= |projects|
  {
    |Filter(projects, (p: Project) => Is(p.status, status))|
  }

  function CountTasks(tasks: seq<Task>, status: string): (n: nat)
    ensures n <= |tasks|
  {
    |Filter(tasks, (t: Task) => Is(t.status, status))|
  }

  /**
   * `new Date(t.end_date) < new Date() && t.status !== 'completed'`, with `now`
   * in days since 0000-01-01 (a date string stands for midnight at its start).
   * An invalid end date is never overdue.
   */
  predicate Overdue(t: Task, now: real) {
    Day(t.end_date).Some? && (Day(t.end_date).value as real) < now && !Is(t.status, "completed")
  }

  function CountOverdue(tasks: seq<Task>, now: real): (n: nat)
    ensures n <= |tasks|
  {
    |Filter(tasks, (t: Task) => Overdue(t, now))|
  }

  /** Active and completed projects are counted apart: together at most all projects. */
  lemma ProjectCountsWithinTotal(projects: seq<Project>)
    ensures CountProjects(projects, "active") + CountProjects(projects, "completed") <= |projects|
  {
    var active := (p: Project) => Is(p.status, "active");
    var done := (p: Project) => Is(p.status, "completed");
    FilterDisjointCounts(projects, active, done, (p: Project) => active(p) || done(p));
  }

  /** A completed task is never overdue: overdue and completed tasks together are at most all tasks. */
  lemma TaskCountsWithinTotal(tasks: seq<Task>, now: real)
    ensures CountOverdue(tasks, now) + CountTasks(tasks, "completed") <= |tasks|
  {
    var late := (t: Task) => Overdue(t, now);
    var done := (t: Task) => Is(t.status, "completed");
    FilterDisjointCounts(tasks, late, done, (t: Task) => late(t) || done(t));
  }

  /** `total > 0 ? (part / total) * 100 : 0`. */
  function Rate(part: nat, total: nat): (r: real)
    ensures total == 0 ==> r == 0.0
    ensures part <= total ==> 0.0 <= r <= 100.0
    ensures total > 0 ==> r * total as real == part as real * 100.0
  {
    if total > 0 then (part as real / total as real) * 100.0 else 0.0
  }

  /** `p.workload || 0`. */
  function WorkloadOf(p: Profile): real {
    p.workload.GetOr(0.0)
  }

  /** `profiles.reduce((sum, p) => sum + (p.workload || 0), 0) / profiles.length`, NaN for no profiles. */
  function AverageWorkload(profiles: seq<Profile>): (r: JsNumber)
    ensures r.NaN? <==> profiles == []
    ensures profiles != [] ==> r.value * |profiles| as real == Sum(profiles, WorkloadOf)
  {
    if profiles == [] then NaN
    else Finite(Sum(profiles, WorkloadOf) / |profiles| as real)
  }

  /** The average lies between the smallest and the largest workload. */
  lemma AverageWorkloadBounds(profiles: seq<Profile>, lo: real, hi: real)
    requires profiles != []
    requires forall i :: 0 <= i < |profiles| ==> lo <= WorkloadOf(profiles[i]) <= hi
    ensures lo <= AverageWorkload(profiles).value <= hi
  {
    MeanBounds(profiles, WorkloadOf, lo, hi);
  }

  // ---------------------------------------------------------------------
  // The page state
  // ---------------------------------------------------------------------

  /** The figures the page shows (the weekly mock series is not modelled). */
  datatype Analytics = Analytics(
    totalProjects: nat,
    activeProjects: nat,
    completedProjects: nat,
    totalTasks: nat,
    completedTasks: nat,
    overdueTasks: nat,
    teamUtilization: JsNumber,
    projectsByStatus: seq<ChartEntry>,
    tasksByPriority: seq<ChartEntry>)

  const InitialAnalytics: Analytics := Analytics(0, 0, 0, 0, 0, 0, Finite(0.0), [], [])

  /** The figures for three successful reads at time `now`. */
  function Figures(projects: seq<Project>, tasks: seq<Task>, profiles: seq<Profile>, now: real): (a: Analytics)
    ensures a.totalProjects == |projects| && a.totalTasks == |tasks|
    ensures EntryTotal(a.projectsByStatus) == a.totalProjects && EntryTotal(a.tasksByPriority) == a.totalTasks
    ensures a.teamUtilization.NaN? <==> profiles == []
    ensures a.activeProjects == CountProjects(projects, "active")
    ensures a.completedProjects == CountProjects(projects, "completed")
    ensures a.completedTasks == CountTasks(tasks, "completed")
    ensures a.overdueTasks == CountOverdue(tasks, now)
    ensures a.teamUtilization == Round(AverageWorkload(profiles))
    ensures var ps := Tally(projects, StatusKey);
      (forall k :: k in ps.order ==> k in ps.counts) && a.projectsByStatus == StatusEntries(ps)
    ensures var ts := Tally(tasks, PriorityKey);
      (forall k :: k in ts.order ==> k in ts.counts) && a.tasksByPriority == PriorityEntries(ts)
  {
    var ps := Tally(projects, StatusKey);
    var ts := Tally(tasks, PriorityKey);
    TallyWellKept(projects, StatusKey);
    TallyWellKept(tasks, PriorityKey);
    StatusChartTotal(projects);
    PriorityChartTotal(tasks);
    Analytics(
      |projects|,
      CountProjects(projects, "active"),
      CountProjects(projects, "completed"),
      |tasks|,
      CountTasks(tasks, "completed"),
      CountOverdue(tasks, now),
      Round(AverageWorkload(profiles)),
      StatusEntries(ps),
      PriorityEntries(ts))
  }

  /** The figures are consistent: parts within totals, and the charts add up to the totals. */
  lemma FiguresConsistent(projects: seq<Project>, tasks: seq<Task>, profiles: seq<Profile>, now: real)
    ensures var a := Figures(projects, tasks, profiles, now);
      && a.activeProjects + a.completedProjects <= a.totalProjects
      && a.overdueTasks + a.completedTasks <= a.totalTasks
      && EntryTotal(a.projectsByStatus) == a.totalProjects
      && EntryTotal(a.tasksByPriority) == a.totalTasks
      && 0.0 <= Rate(a.completedTasks, a.totalTasks) <= 100.0
      && 0.0 <= Rate(a.completedProjects, a.totalProjects) <= 100.0
  {
    ProjectCountsWithinTotal(projects);
    TaskCountsWithinTotal(tasks, now);
    StatusChartTotal(projects);
    PriorityChartTotal(tasks);
  }

  class AnalyticsView {
    var analytics: Analytics
    var loading: bool

    constructor ()
      ensures analytics == InitialAnalytics && loading
    {
      analytics := InitialAnalytics;
      loading := true;
    }

    /**
     * `fetchAnalytics`, given the data of the three reads (None for null data):
     * the figures are replaced only when all three returned data; loading ends
     * either way.
     */
    method FetchAnalytics(projects: Option<seq<Project>>, tasks: Option<seq<Task>>,
                          profiles: Option<seq<Profile>>, now: real)
      modifies this
      ensures !loading
      ensures projects.Some? && tasks.Some? && profiles.Some? ==>
        analytics == Figures(projects.value, tasks.value, profiles.value, now)
      ensures !(projects.Some? && tasks.Some? && profiles.Some?) ==> analytics == old(analytics)
    {
      if projects.Some? && tasks.Some? && profiles.Some? {
        var ps, ts, ws := projects.value, tasks.value, profiles.value;
        var statusCounts, statusOrder := CountBy(ps, StatusKey);
        var priorityCounts, priorityOrder := CountBy(ts, PriorityKey);
        TallyWellKept(ps, StatusKey);
        TallyWellKept(ts, PriorityKey);
        analytics := Analytics(
          |ps|,
          CountProjects(ps, "active"),
          CountProjects(ps, "completed"),
          |ts|,
          CountTasks(ts, "completed"),
          CountOverdue(ts, now),
          Round(AverageWorkload(ws)),
          StatusEntries(Tallies(statusCounts, statusOrder)),
          PriorityEntries(Tallies(priorityCounts, priorityOrder)));
      }
      loading := false;
    }
  }
}
