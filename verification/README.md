# Team AI Canvas dashboard: a Dafny model of its client-side logic

Team AI Canvas is a React dashboard for projects, tasks and team members,
backed by a hosted database. This project models the decisions the client
makes. Every backend read, insert or update becomes an input (found or
absent, data or error). The model covers:

- `ProjectSecurityService` (validation, sanitisation, the access rule) and
  `formatProjectBudget`'s unit choice;
- the `AuthProvider` state and `useAuth`;
- the create-project modal: form state, validation, payload and error
  messages;
- the filters, gates, counts and render choices of the Projects, Tasks, Team,
  Analytics, Dashboard, Project detail and Settings pages;
- the Gantt chart's geometry and the summary cards of tasks.

The JavaScript semantics the code relies on are written out explicitly:

- truthiness, `Number`, `parseFloat`, `parseInt`, `Math.round`, `trim`,
  `toLowerCase`, `includes` and `split('@')[0]`;
- `replace` of the first `_`;
- string `<`;
- dates as `YYYY-MM-DD` strings with day numbers, where an invalid date has
  no day number and so behaves like an invalid JavaScript date.

Helper modules: `Outcomes` (Option/Result), `Text`, `Numbers`, `IsoDate`,
`Lists` and `Records` (the table rows). There is one module per source file.

Components that keep state become classes whose fields are the `useState`
variables: `AuthProvider`, `Modal`, `AnalyticsView`, `DashboardView`,
`DetailState` and `Settings`. Their handlers are methods. The
`validateProjectData` push loop is a method proved equal to a specification
function. The analytics `reduce` into a dictionary is a method with a loop
invariant.

## Model

| member | source | states |
|---|---|---|
| ProjectUtils.ValidateProjectData | src/utils/projectUtils.ts:47-80 | runs all six checks with no early exit; the result is exactly the errors of the failing checks, in check order |
| ProjectUtils.FailedAmongSpec | src/utils/projectUtils.ts:47-80 | after the first k checks, the list holds an error exactly when its check is among them and fails, without repeats, in check order |
| ProjectUtils.FailedAmongPrefix | src/utils/projectUtils.ts:47-80 | errors accumulated by fewer checks are a prefix of those accumulated by more |
| ProjectUtils.FailedChecksSpec | src/utils/projectUtils.ts:47-80 | an error is reported iff its check fails; reported errors are in strictly increasing check order |
| ProjectUtils.ReportedFields | src/utils/projectUtils.ts:47-80 | a field appears among the errors iff one of the checks on that field fails |
| ProjectUtils.ReportedNameAndDates | src/utils/projectUtils.ts:50-77 | `name` is reported iff the name is missing, short once trimmed, or over 100 raw characters; `end_date` iff both dates are present and the end is before the start |
| ProjectUtils.NoErrorsIffValid | src/utils/projectUtils.ts:47-80 | the error list is empty iff no check fails |
| ProjectUtils.ErrorsInCheckOrder | src/utils/projectUtils.ts:47-80 | a short name is the first error reported; a reversed date range is the last |
| ProjectUtils.BudgetCheckCases | src/utils/projectUtils.ts:62-64 | a numeric budget fails iff negative; absent, null, empty, NaN and zero budgets skip the check; a non-numeric string fails |
| ProjectUtils.ProgressCheckCases | src/utils/projectUtils.ts:66-68 | a numeric progress fails iff outside [0, 100]; a falsy progress skips the check |
| ProjectUtils.SameDayAccepted | src/utils/projectUtils.ts:70-77 | equal dates pass, and so does a range with a missing or invalid date |
| ProjectUtils.BlankLongNameFailsTwice | src/utils/projectUtils.ts:50-56 | 101 spaces give two name errors: too short once trimmed, too long untrimmed |
| ProjectUtils.DefaultColorIsHex | src/utils/projectUtils.ts:96 | the fallback colour `#3B82F6` passes the colour pattern |
| ProjectUtils.TrimmedOrEmpty | src/utils/projectUtils.ts:84-85 | the trimmed text, or `''` when absent; it never starts or ends with a space |
| ProjectUtils.Whitelisted | src/utils/projectUtils.ts:86-91 | the result is always in the allowed list: the input if allowed, the fallback otherwise |
| ProjectUtils.ClampedProgress | src/utils/projectUtils.ts:92 | the result is in [0, 100]; a NaN parse gives 0; otherwise it is the parsed integer clamped to [0, 100] |
| ProjectUtils.SanitizedBudget | src/utils/projectUtils.ts:93 | null iff the input is falsy; NaN iff it parses to NaN; otherwise the maximum of 0 and the parsed value |
| ProjectUtils.DateOrNull | src/utils/projectUtils.ts:94-95 | an empty or missing date becomes null; any other date is kept |
| ProjectUtils.SanitizeProjectData | src/utils/projectUtils.ts:82-98 | name and description trimmed; status and priority whitelisted with fallbacks `planning` and `medium`; progress clamped; the budget sanitised; empty dates null; the colour kept iff it matches the hex pattern, otherwise `#3B82F6` |
| ProjectUtils.TrimmedOrEmptyStable | src/utils/projectUtils.ts:84-85 | sanitising a sanitised text field changes nothing |
| ProjectUtils.ClampedProgressStable | src/utils/projectUtils.ts:92 | a progress already in [0, 100] is kept |
| ProjectUtils.SanitizedBudgetStable | src/utils/projectUtils.ts:93 | a sanitised budget sanitises to itself, except that 0 and NaN become null |
| ProjectUtils.SanitizeStable | src/utils/projectUtils.ts:82-98 | a sanitised record sanitises to itself, except that a budget of 0 or NaN, being falsy, becomes null |
| ProjectUtils.NegativeBudgetClash | src/utils/projectUtils.ts:62-93 | a negative budget is rejected by the validator yet sanitised to 0 |
| ProjectUtils.ExcessProgressClash | src/utils/projectUtils.ts:66-92 | a progress above 100 is rejected by the validator yet clamped to 100 |
| ProjectUtils.ValidateProjectAccess | src/utils/projectUtils.ts:10-45 | a missing project or a failed lookup denies access; the owner is granted it; a non-owner gets it only to read, and only with a membership row |
| ProjectUtils.AccessByAction | src/utils/projectUtils.ts:10-45 | write and delete get the same answer, granted iff the user is the owner; whatever write gets, read gets too |
| ProjectUtils.BudgetDisplay | src/utils/projectUtils.ts:111-118 | millions from 1,000,000, thousands from 1,000, plain below that; the figure before the suffix is at least 1 |
| ProjectUtils.BudgetScaleMonotone | src/utils/projectUtils.ts:111-118 | a larger budget never gets a smaller unit |
| UseAuth.EffectiveRole | src/hooks/useAuth.tsx:47-49 | `admin` for the fixed address, otherwise the stored role when non-empty, otherwise `member` |
| UseAuth.EffectiveRoleAdmin | src/hooks/useAuth.tsx:47-49 | the role is `admin` iff the address is the fixed one or the stored role is `admin` |
| UseAuth.MustPatchStoredRole | src/hooks/useAuth.tsx:51-57 | the stored role is rewritten only for the fixed address, and only when it is not already `admin` |
| UseAuth.PatchSettlesStoredRole | src/hooks/useAuth.tsx:51-60 | after the rewrite the effective role is unchanged, no second rewrite is due, and the stored role equals the effective one |
| UseAuth.NewRole | src/hooks/useAuth.tsx:63 | a new profile is `admin` iff the address is the fixed one, else `member` |
| UseAuth.NewRoleIsDefaultRole | src/hooks/useAuth.tsx:47-63 | a new profile's role is the role of a profile with no stored role |
| UseAuth.NewProfileRow | src/hooks/useAuth.tsx:61-79 | the inserted row has the user's id and address and the new role; its name is the metadata name, else a prefix of the address containing no `@` |
| UseAuth.NewProfileNameIsLocalPart | src/hooks/useAuth.tsx:69 | without a metadata name, the new profile is named after the address's local part |
| UseAuth.AuthProvider.constructor | src/hooks/useAuth.tsx:20-24 | the provider starts loading, with no session, user, role or profile |
| UseAuth.AuthProvider.OnAuthStateChange | src/hooks/useAuth.tsx:31-93 | records the session and its user; with no user, clears role and profile; loading is false after every event |
| UseAuth.AuthProvider.LoadProfile | src/hooks/useAuth.tsx:39-84 | an existing profile is exposed with the effective role; the role is patched for the fixed address; a missing profile is inserted with the new-profile row; any thrown error gives role `member` and keeps the profile |
| UseAuth.AuthProvider.InitialSessionCheck | src/hooks/useAuth.tsx:96-102 | the initial check ends loading only when there is no session |
| UseAuth.UseAuthContext | src/hooks/useAuth.tsx:170-176 | outside a provider the hook fails with its fixed message; inside, it returns the provider's value |
| CreateProjectModal.With | src/components/CreateProjectModal.tsx:186-188 | the named field takes the new value |
| CreateProjectModal.WithChangesOneField | src/components/CreateProjectModal.tsx:186-188 | every other field keeps its value |
| CreateProjectModal.WithSameValue | src/components/CreateProjectModal.tsx:186-188 | writing a field's own value back changes nothing |
| CreateProjectModal.DefaultFormIsSanitized | src/components/CreateProjectModal.tsx:36-45 | the default status, priority and colour are the service's own whitelist entries and fallback colour |
| CreateProjectModal.Complaints | src/components/CreateProjectModal.tsx:60-91 | each complaint is present iff its check fails |
| CreateProjectModal.FormFailures | src/components/CreateProjectModal.tsx:60-91 | a blank name, a start after the end (both present), and a budget with no leading number are each listed iff they occur |
| CreateProjectModal.ValidateForm | src/components/CreateProjectModal.tsx:60-91 | passes iff no check fails; otherwise reports only the first failure in check order |
| CreateProjectModal.NameCheckedFirst | src/components/CreateProjectModal.tsx:61-68 | a blank name is the reported failure, whatever else is wrong |
| CreateProjectModal.FormSameDayAccepted | src/components/CreateProjectModal.tsx:70-79 | a same-day range and a range with an empty date never fail the date check |
| CreateProjectModal.OrNull | src/components/CreateProjectModal.tsx:125-136 | an empty string becomes null; any other string is kept |
| CreateProjectModal.Payload | src/components/CreateProjectModal.tsx:125-136 | trimmed name; trimmed description or null; empty dates null; budget parsed or null; owner is the profile; progress 0 |
| CreateProjectModal.AcceptedPayload | src/components/CreateProjectModal.tsx:105-136 | a form that passes gives a non-blank trimmed name, a budget that is null or a number, and dates not in reverse order |
| CreateProjectModal.DateChecksAgree | src/components/CreateProjectModal.tsx:70-79 | the form's start > end check and the service's end < start check agree on the payload's dates |
| CreateProjectModal.ShortNameAcceptedByFormOnly | src/components/CreateProjectModal.tsx:61-68 | a 1 or 2 character name passes the form but is rejected by the service |
| CreateProjectModal.NegativeBudgetAcceptedByForm | src/components/CreateProjectModal.tsx:81-88 | a negative budget passes the form and reaches the payload; the service rejects it, yet sanitises it to 0 |
| CreateProjectModal.CreateErrorMessage | src/components/CreateProjectModal.tsx:166-174 | a message containing "permission denied" gives the permission text; else one containing "violates row-level security" gives the policy text; else a non-empty message is shown as it is; a missing or empty message gives the default |
| CreateProjectModal.StartSubmit | src/components/CreateProjectModal.tsx:93-136 | exactly one of a notice or a payload; no user or profile gives the login notice before validation; a failed check gives its notice; else the payload for the profile |
| CreateProjectModal.Modal.constructor | src/components/CreateProjectModal.tsx:35-45 | the form starts at its defaults, not loading |
| CreateProjectModal.Modal.HandleInputChange | src/components/CreateProjectModal.tsx:186-188 | the form becomes the old form with one field set |
| CreateProjectModal.Modal.ResetForm | src/components/CreateProjectModal.tsx:47-58 | the form returns to its defaults |
| CreateProjectModal.Modal.HandleClose | src/components/CreateProjectModal.tsx:190-195 | ignored while loading; otherwise resets the form and closes |
| CreateProjectModal.Modal.BeginSubmit | src/components/CreateProjectModal.tsx:93-136 | the payload to insert is that of the submit's synchronous part; loading starts only when a payload is produced |
| CreateProjectModal.Modal.FinishSubmit | src/components/CreateProjectModal.tsx:138-183 | success shows the created notice, resets, closes and notifies the parent; failure shows the mapped message and keeps the form; loading ends either way |
| ProjectsPage.FilteredProjects | src/components/ProjectsPage.tsx:152-158 | the result is a sub-list holding exactly the projects that match the search and both filters |
| ProjectsPage.FilteredKeepsOrder | src/components/ProjectsPage.tsx:152-158 | filtering a concatenation filters each part, so fetched order is kept |
| ProjectsPage.EmptySearchMatches | src/components/ProjectsPage.tsx:153-154 | an empty search matches every project |
| ProjectsPage.NoFiltersListsAll | src/components/ProjectsPage.tsx:152-158 | an empty search with both filters at `all` lists every project |
| ProjectsPage.SearchIgnoresCase | src/components/ProjectsPage.tsx:153-154 | a search and its lower-cased form match the same projects |
| ProjectsPage.StatusFilterExact | src/components/ProjectsPage.tsx:155 | a specific status filter keeps only projects with exactly that status |
| ProjectsPage.CanCreateProjects | src/components/ProjectsPage.tsx:160 | admins and managers only |
| ProjectsPage.FetchProjects | src/components/ProjectsPage.tsx:53-81 | without profile and user the fetch fails with "User not authenticated"; a backend error is rethrown with a prefix; null data is an empty list |
| ProjectsPage.EnabledQueryIsAuthenticated | src/components/ProjectsPage.tsx:53-92 | the query is enabled iff the fetch cannot fail for want of a user |
| ProjectsPage.ShouldRetry | src/components/ProjectsPage.tsx:95-102 | the retry rule as written: no retry on "permission" or "authentication", else while fewer than 3 failures |
| ProjectsPage.NotAuthenticatedIsRetried | src/components/ProjectsPage.tsx:95-102 | the fetch's own "User not authenticated" error is retried by the rule as written |
| ProjectsPage.NoPermissionMentioned | src/components/ProjectsPage.tsx:98 | "User not authenticated" does not contain "permission" |
| ProjectsPage.NoAuthenticationMentioned | src/components/ProjectsPage.tsx:98 | "User not authenticated" does not contain "authentication" |
| ProjectsPage.AuthAwareRetry | src/components/ProjectsPage.tsx:95-102 | the corrected rule never retries the fetch's authentication error, and agrees with the written rule on messages not mentioning authentication |
| ProjectsPage.AttemptsBound | src/components/ProjectsPage.tsx:95-102 | under the corrected rule a failing query runs once when its message refuses retries, otherwise four times in all |
| ProjectsPage.ShouldRetryAuthAware | src/components/ProjectsPage.tsx:95-102 | the corrected retry rule: no retry when the message mentions "permission" or any form of "authenticat(e/ed/ion)", else while fewer than 3 failures |
| ProjectsPage.EmptyStateText | src/components/ProjectsPage.tsx:384-387 | the "adjust filters" hint shows iff a search or filter is active |
| ProjectsPage.ShowsCreateButton | src/components/ProjectsPage.tsx:389 | the button needs a creating role, an empty search and both filters at `all` |
| ProjectsPage.CreateButtonOnlyWhenNothingFetched | src/components/ProjectsPage.tsx:384-389 | when the empty state offers the button, no project was fetched at all and the "get started" hint shows |
| TasksPage.FilteredTasks | src/components/TasksPage.tsx:68-74 | the result is a sub-list holding exactly the tasks that match |
| TasksPage.FilteredTasksKeepOrder | src/components/TasksPage.tsx:68-74 | filtering keeps fetched order |
| TasksPage.NullPriorityOnlyUnderAll | src/components/TasksPage.tsx:72 | a task without a priority is hidden by any specific priority filter |
| TasksPage.HasFilters | src/components/TasksPage.tsx:76 | a non-empty search or a filter other than `all` |
| TasksPage.NoFiltersListsAll | src/components/TasksPage.tsx:68-76 | without filters every task is listed |
| TasksPage.QueryEnabled | src/components/TasksPage.tsx:64 | the query waits for authentication to settle |
| TasksPage.TwoAttempts | src/components/TasksPage.tsx:65 | with `retry: 1` a failing read is attempted twice |
| TasksPage.FetchTasks | src/components/TasksPage.tsx:38-53 | a backend error is rethrown with a prefix; null data is an empty list |
| TasksPage.Render | src/components/TasksPage.tsx:78-118 | loading wins over the error, which wins over content; the chart shows iff the filtered list is non-empty, else the empty state with the `hasFilters` flag |
| TasksPage.UnfilteredEmptyMeansNoTasks | src/components/TasksPage.tsx:76-114 | an empty state without filters means no task was fetched |
| TeamPage.WithDefaults | src/components/TeamPage.tsx:57-61 | a missing workload becomes 0 and a missing or empty status becomes `active`; nothing else changes |
| TeamPage.WithDefaultsIdempotent | src/components/TeamPage.tsx:57-61 | filling in defaults twice equals once |
| TeamPage.MapMembers | src/components/TeamPage.tsx:57-61 | one member per fetched row, in order, each with defaults; none for null data |
| TeamPage.AfterFetch | src/components/TeamPage.tsx:47-74 | a reply replaces the list wholesale; an error keeps it and flags the toast; loading ends |
| TeamPage.FilteredMembers | src/components/TeamPage.tsx:119-125 | the result is a sub-list holding exactly the members whose name, email or department matches, with the role filter applied |
| TeamPage.FilteredMembersKeepOrder | src/components/TeamPage.tsx:119-125 | filtering keeps the list's order |
| TeamPage.NoFiltersListsAll | src/components/TeamPage.tsx:119-125 | with no search and role `all` every member is listed |
| TeamPage.RoleCount | src/components/TeamPage.tsx:215-226 | a role's count is at most the number of members |
| TeamPage.TeamStats | src/components/TeamPage.tsx:204-237 | the cards count the whole, unfiltered list: the total, the members with role `admin`, with role `manager` and with status `active`; each within the total, admins plus managers within it |
| TeamPage.ShowsAdminControls | src/components/TeamPage.tsx:165-297 | Add Member, the member menu and the edit control are for admins only |
| TeamPage.EmptyStateText | src/components/TeamPage.tsx:313-315 | the "adjust filters" hint iff a search or a role filter is active, otherwise the invitation text |
| TeamPage.InviteHintOnlyForEmptyTeam | src/components/TeamPage.tsx:308-318 | the invitation hint appears only when there are no members at all |
| AnalyticsPage.CountBy | src/components/AnalyticsPage.tsx:99-114 | the in-place reduce produces the dictionary and key order of the fold `Tally` |
| AnalyticsPage.TallyCountsAt | src/components/AnalyticsPage.tsx:99-102 | each key's value is the number of elements with that key, and a key is present iff some element has it |
| AnalyticsPage.TallyWellKept | src/components/AnalyticsPage.tsx:104-108 | the listed entries name each dictionary key exactly once |
| AnalyticsPage.TallySum | src/components/AnalyticsPage.tsx:99-102 | the dictionary's values add up to the number of elements |
| AnalyticsPage.PriorityKey | src/components/AnalyticsPage.tsx:111-114 | a missing or empty priority is counted as `medium`; any other priority is its own key |
| AnalyticsPage.StatusKey | src/components/AnalyticsPage.tsx:99-102 | a present status is its own key; the key is `null` iff the status is missing or is the text `null` |
| AnalyticsPage.ColorFallback | src/components/AnalyticsPage.tsx:36-44 | keys without their own colour are drawn `#6B7280` |
| AnalyticsPage.ColorOf | src/components/AnalyticsPage.tsx:36-44 | every key gets a `#rrggbb` colour: blue iff `active`, red iff `high`, green iff `completed` or `low`, amber iff `on_hold` or `medium`, grey iff `planning` or a key without a colour of its own |
| AnalyticsPage.StatusEntries | src/components/AnalyticsPage.tsx:104-108 | one entry per key in first-seen order, named with its first `_` turned into a space, with its count and colour |
| AnalyticsPage.PriorityEntries | src/components/AnalyticsPage.tsx:116-120 | one entry per key in first-seen order, named by the key, with its count and colour |
| AnalyticsPage.StatusChartTotal | src/components/AnalyticsPage.tsx:99-108 | the status chart's values add up to the total number of projects |
| AnalyticsPage.PriorityChartTotal | src/components/AnalyticsPage.tsx:111-120 | the priority chart's values add up to the total number of tasks |
| AnalyticsPage.CountProjects | src/components/AnalyticsPage.tsx:86-87 | a status count is at most the number of projects |
| AnalyticsPage.CountTasks | src/components/AnalyticsPage.tsx:90 | a status count is at most the number of tasks |
| AnalyticsPage.Overdue | src/components/AnalyticsPage.tsx:91-93 | a task is overdue iff it has a valid end date before now and its status is not `completed` |
| AnalyticsPage.CountOverdue | src/components/AnalyticsPage.tsx:91-93 | overdue tasks (valid end date before now, not completed) are at most all tasks |
| AnalyticsPage.ProjectCountsWithinTotal | src/components/AnalyticsPage.tsx:85-87 | active plus completed projects is at most the total |
| AnalyticsPage.TaskCountsWithinTotal | src/components/AnalyticsPage.tsx:89-93 | overdue plus completed tasks is at most the total, since a completed task is never overdue |
| AnalyticsPage.Rate | src/components/AnalyticsPage.tsx:172-173 | 0 with a zero denominator; otherwise the percentage (rate times total equals part times 100), within [0, 100] when the part is within the total |
| AnalyticsPage.AverageWorkload | src/components/AnalyticsPage.tsx:96 | NaN iff there are no profiles; otherwise the average times the number of profiles is the sum of the workloads, a missing one counted as 0 |
| AnalyticsPage.AverageWorkloadBounds | src/components/AnalyticsPage.tsx:96 | the average lies between the smallest and the largest workload |
| AnalyticsPage.Figures | src/components/AnalyticsPage.tsx:84-141 | the totals are the numbers of projects and tasks; the active, completed and overdue figures are their filter counts; the charts are the entries of the status and priority dictionaries and add up to their totals; the utilisation is the rounded average workload, NaN iff there are no profiles |
| AnalyticsPage.FiguresConsistent | src/components/AnalyticsPage.tsx:84-141 | parts are within totals, both charts add up to their totals, and both rates lie in [0, 100] |
| AnalyticsPage.AnalyticsView.constructor | src/components/AnalyticsPage.tsx:48-60 | zeroed figures, loading |
| AnalyticsPage.AnalyticsView.FetchAnalytics | src/components/AnalyticsPage.tsx:67-148 | the figures are replaced only when all three reads return data, otherwise kept; loading ends |
| Dashboard.VisibleProjects | src/components/Dashboard.tsx:50-73 | a member sees exactly the projects whose id is among their assignments; a manager those owned or assigned; any other role everything |
| Dashboard.ManagerSeesMoreThanMember | src/components/Dashboard.tsx:52-71 | with the same assignments a manager sees at least as many projects as a member |
| Dashboard.AverageProgress | src/components/Dashboard.tsx:90-91 | 0 with no projects or no data; otherwise the sum of the progress values, a missing one counted as 0, divided by the number of projects |
| Dashboard.LengthOr0 | src/components/Dashboard.tsx:94-97 | a total is 0 when the read returned no data, else the list's length |
| Dashboard.CountOr0 | src/components/Dashboard.tsx:88-89 | a status count is 0 without data and never above the total |
| Dashboard.Stats | src/components/Dashboard.tsx:88-100 | the totals are the lengths of the lists read; active projects and completed tasks are the counts of status `active` and `completed` among them; zeros for missing data; the team count or 0; the rounded average progress |
| Dashboard.StatsConsistent | src/components/Dashboard.tsx:88-100 | active projects and completed tasks are within their totals, missing data gives zeros, and the rounded average progress is a whole number in [0, 100] |
| Dashboard.GreetingName | src/components/Dashboard.tsx:156 | the profile's full name when non-empty, otherwise `User` |
| Dashboard.ShowsNewProjectButton | src/components/Dashboard.tsx:162 | admins and managers only |
| Dashboard.DashboardView.constructor | src/components/Dashboard.tsx:31-41 | zeroed stats, empty lists, loading |
| Dashboard.DashboardView.FetchDashboardData | src/components/Dashboard.tsx:47-109 | the stats are computed over the visible projects and the ten newest tasks; the recent lists are their first five; loading ends |
| Dashboard.RecentSlices | src/components/Dashboard.tsx:102-103 | the recent projects are the first min(5, n) projects, and the first five of the ten newest tasks are the five newest tasks |
| ProjectDetailPage.MapTask | src/components/ProjectDetailPage.tsx:102-105 | a missing or empty assignee id becomes null; nothing else changes |
| ProjectDetailPage.MapTasks | src/components/ProjectDetailPage.tsx:102-106 | one task per row, in order; none for null data |
| ProjectDetailPage.FormatMember | src/components/ProjectDetailPage.tsx:124-130 | the role comes from the membership row; id, name, email and avatar come from the joined profile |
| ProjectDetailPage.FormatMembers | src/components/ProjectDetailPage.tsx:124-130 | one card per row, in order; none for null data |
| ProjectDetailPage.CompletedTasks | src/components/ProjectDetailPage.tsx:197 | at most the number of tasks, and equal to it iff every task is completed |
| ProjectDetailPage.TotalHours | src/components/ProjectDetailPage.tsx:198 | the estimated-hours sum is 0 when no task has an estimate and non-negative when every estimate is (its value is fixed by HoursAdditive) |
| ProjectDetailPage.ActualHours | src/components/ProjectDetailPage.tsx:199 | the actual-hours sum is 0 when no task has recorded hours and non-negative when every recorded value is (its value is fixed by HoursAdditive) |
| ProjectDetailPage.HoursAdditive | src/components/ProjectDetailPage.tsx:198-199 | each sum is additive over concatenation, and a single task contributes its own hours, 0 when missing |
| ProjectDetailPage.HoursCountOnlyRecordedValues | src/components/ProjectDetailPage.tsx:198-199 | tasks without recorded hours add nothing to either sum |
| ProjectDetailPage.TotalHoursBounds | src/components/ProjectDetailPage.tsx:198 | with each estimate in [0, h], the total is in [0, h times the number of tasks] |
| ProjectDetailPage.RecentActivity | src/components/ProjectDetailPage.tsx:342 | the first min(3, n) tasks: exactly three when there are at least three, the whole list otherwise |
| ProjectDetailPage.ActivityVerb | src/components/ProjectDetailPage.tsx:346 | "completed" iff its task is completed, "updated" otherwise |
| ProjectDetailPage.CanEdit | src/components/ProjectDetailPage.tsx:223-466 | the edit and add controls are for admins and managers only |
| ProjectDetailPage.Render | src/components/ProjectDetailPage.tsx:174-195 | the skeleton iff loading; the not-found view iff loaded without a project; otherwise the details of that project |
| ProjectDetailPage.DetailState.constructor | src/components/ProjectDetailPage.tsx:71-74 | no project, no tasks, no members, loading |
| ProjectDetailPage.DetailState.FetchProjectDetails | src/components/ProjectDetailPage.tsx:82-143 | a failed project read aborts before tasks and members, keeps the old state and shows the failure; otherwise stores the project and the mapped tasks and members; loading ends |
| ProjectDetailPage.DetailState.Mount | src/components/ProjectDetailPage.tsx:76-80 | without an id nothing changes; with one the details are fetched: a failed project read keeps the project, tasks and members and shows the failure, a successful one stores the project, the mapped tasks and the mapped members; loading ends |
| ProjectDetailPage.FailedFirstLoad | src/components/ProjectDetailPage.tsx:82-195 | a first load whose project read fails ends on the not-found view with no tasks and no members |
| TaskGanttChart.EarliestFrom | src/components/tasks/TaskGanttChart.tsx:41 | the reduce returns its start value or some task's start date |
| TaskGanttChart.EarliestIsMinimal | src/components/tasks/TaskGanttChart.tsx:40-42 | the reduce's result is not above its start value or any task's start date |
| TaskGanttChart.EarliestStart | src/components/tasks/TaskGanttChart.tsx:40-42 | the earliest date is some task's start date and no start date is below it as strings |
| IsoDate.DifferenceInDays | src/components/tasks/TaskGanttChart.tsx:46-47 | NaN iff a date is invalid; otherwise the difference of the two day numbers, 0 iff the strings are equal and negative iff the later one sorts first |
| IsoDate.NextDayNumber | src/components/tasks/TaskGanttChart.tsx:46-47 | day numbers count calendar days: the day after a date, across month and year ends, has the next day number |
| TaskGanttChart.Duration | src/components/tasks/TaskGanttChart.tsx:47 | NaN iff a date is invalid; otherwise the end's day number minus the start's plus 1, which is 1 iff the task starts and ends on the same day and at least 1 iff the end is not before the start |
| TaskGanttChart.GanttData | src/components/tasks/TaskGanttChart.tsx:37-49 | one row per task, in order, carrying its task, offset from the earliest start and its duration |
| TaskGanttChart.StartDaysFromEarliest | src/components/tasks/TaskGanttChart.tsx:40-46 | a measured offset is the start's day number minus the earliest start's, at least 0, and 0 exactly for the tasks that start on the earliest date |
| TaskGanttChart.SomeTaskOnDayZero | src/components/tasks/TaskGanttChart.tsx:40-46 | when every start date is valid, some task starts on day 0 |
| TaskGanttChart.OneDayTask | src/components/tasks/TaskGanttChart.tsx:47 | a task starting and ending on the same valid day lasts 1 day |
| TaskGanttChart.NextDayTask | src/components/tasks/TaskGanttChart.tsx:47 | a task ending on the calendar day after its start lasts 2 days |
| TaskGanttChart.StatusColor | src/components/tasks/TaskGanttChart.tsx:51-58 | completed, in_progress and review get their own colours; any other status is `#6B7280` |
| TaskSummaryCards.CountStatus | src/components/tasks/TaskSummaryCards.tsx:43-63 | a status count is at most the number of tasks |
| TaskSummaryCards.SummaryCards | src/components/tasks/TaskSummaryCards.tsx:33-63 | Total is the number of tasks; the other cards count `completed`, `in_progress` and `todo` |
| TaskSummaryCards.ThreeStatusesBounded | src/components/tasks/TaskSummaryCards.tsx:43-63 | counts of three different statuses add up to at most the number of tasks |
| TaskSummaryCards.StatusCardsWithinTotal | src/components/tasks/TaskSummaryCards.tsx:33-63 | Completed, In Progress and To Do add up to at most Total |
| SettingsPage.EditFormOf | src/components/SettingsPage.tsx:82-93 | the form holds exactly the seven fields, each copied from the profile |
| SettingsPage.WithField | src/components/SettingsPage.tsx:420-470 | an input sets its own field and keeps every other entry |
| SettingsPage.Shown | src/components/SettingsPage.tsx:420-470 | an input shows its field's text, or `''` when the field is absent or null |
| SettingsPage.ShownAfterEdit | src/components/SettingsPage.tsx:420-470 | after typing, the input shows the typed value |
| SettingsPage.IsAdminView | src/components/SettingsPage.tsx:46-50 | profiles are fetched, and the user tab exists, only for admins |
| SettingsPage.RoleBadge | src/components/SettingsPage.tsx:127-134 | `destructive` iff admin, `default` iff manager, `secondary` iff member, `outline` iff none of these |
| SettingsPage.StatusDot | src/components/SettingsPage.tsx:136-143 | green iff the status is missing, empty or `active`; yellow iff `busy`; grey iff neither |
| SettingsPage.Settings.constructor | src/components/SettingsPage.tsx:41-44 | no profiles, not loading, nothing being edited, an empty form |
| SettingsPage.Settings.FetchAllProfiles | src/components/SettingsPage.tsx:52-80 | a reply replaces the profiles with the rows given defaults; an error keeps them and shows the failure; the edit state is untouched; loading ends |
| SettingsPage.Settings.OnRoleChange | src/components/SettingsPage.tsx:46-50 | for anyone but an admin nothing changes; for an admin the profiles are replaced on success, kept with a failure toast on error, loading ends and the edit state is untouched |
| SettingsPage.Settings.StartEditing | src/components/SettingsPage.tsx:82-93 | the edited id is the profile's and the form is its seven-field copy; nothing else changes |
| SettingsPage.Settings.CancelEditing | src/components/SettingsPage.tsx:95-98 | no profile being edited, an empty form, the dialog closed; nothing else changes |
| SettingsPage.Settings.SetField | src/components/SettingsPage.tsx:420-470 | only the input's own field changes |
| SettingsPage.Settings.SaveProfile | src/components/SettingsPage.tsx:100-124 | the update sends the form as it was; success clears the edit state, shows the success notice and refetches; failure shows the error and leaves the edit state and profiles untouched |
| SettingsPage.StartThenCancel | src/components/SettingsPage.tsx:82-98 | starting an edit opens the dialog for a profile with an id; cancelling returns to no edit and an empty form |

## Left out

- All backend and identity traffic is outside the model: selects, inserts, updates, `getSession`, `signInWithOAuth` and `signOut` (src/hooks/useAuth.tsx:110-153). Their results are parameters of the modelled operations.
- Row-level security is not modelled. The role gates on the pages are advisory; the backend enforces access.
- Asynchrony is not modelled:
  - the `setTimeout` deferral of the profile load (src/hooks/useAuth.tsx:39) is a separate method, `LoadProfile`;
  - the auth subscription and its clean-up are left out;
  - react-query caching, `staleTime`, `gcTime` and deduplication are left out;
  - the refetch that `saveProfile` starts without awaiting is modelled as completing at once.
- Presentation is left out: `getProjectStatusIcon` (its icons are mis-encoded text), the badge and colour helpers of the Dashboard and Project detail pages, `toFixed` and `toLocaleString` digits in `formatProjectBudget`, the Gantt opacity and the avatar initials.
- The analytics weekly series (src/components/AnalyticsPage.tsx:122-128) is hard-coded mock data and is not modelled.
- Numbers are exact reals. NaN is tracked; infinities, `-0`, hexadecimal literals and floating-point rounding are not.
- Text is simplified:
  - lengths count Unicode code points where JavaScript counts UTF-16 code units, so the 3- and 100-character name limits and the 500-character description limit of `validateProjectData` are exact only for text without characters above U+FFFF (a name of two emoji is 4 units long in JavaScript but 2 characters here);
  - `toLowerCase` is modelled on ASCII letters only;
  - `Object.entries` ordering of integer-like keys is not modelled (statuses and priorities are words), so chart entries are in first-seen order.
- AnalyticsPage.StatusKey: a project with a missing status is counted under the key `"null"`, so undefined and null statuses are not told apart.
- AnalyticsPage.CountBy: the dictionary is modelled as a map, so a status or priority equal to a member name of `Object.prototype` (such as `constructor` or `__proto__`) is counted like any other key; the source's plain object would instead concatenate onto the inherited member or drop the assignment. TallyCountsAt and TallySum hold for keys that are not such names.
- AnalyticsPage.ColorOf: for such a key `COLORS[k]` is the inherited member rather than a colour; the model gives it the fallback grey.
- ProjectUtils.ClampedProgress: `ParseIntOf` truncates a numeric field, while JavaScript's `parseInt` reads the leading digits of `String(x)`; the two differ for 0 < |x| < 1e-6 and |x| >= 1e21, whose strings are in exponent form (`parseInt(5e-7)` is 5 and `parseInt(1e21)` is 1), so the clamped progress for such numbers is not modelled.
- Dates are strict `YYYY-MM-DD` strings. Other formats that `new Date` accepts, time-of-day parts and time zones are not modelled, and the current time is a parameter `now` (a day number).
- The PostgREST `.in(...)` and `.or(...)` filters of the dashboard are modelled as the filters they express; tasks arrive as a parameter already ordered newest first and limited by the model to ten.
- `TeamPage.updateMemberRole` and the page's role-change menu are not listed as core and are not modelled.

## Findings

| source | as written | input that shows it | evidently intended | confidence | as-written member | corrected member |
|---|---|---|---|---|---|---|
| src/components/ProjectsPage.tsx:95-102 | retry is refused only when the message contains "permission" or "authentication" | the fetch's own error "User not authenticated" (src/components/ProjectsPage.tsx:56) contains "authenticated", not "authentication", so it is retried up to three times | authentication errors, including the fetch's own, are never retried | medium, not executed | ProjectsPage.NotAuthenticatedIsRetried | ProjectsPage.AuthAwareRetry |
