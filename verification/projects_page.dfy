/**
 * `ProjectsPage`: the project list with a search box and status and priority
 * filters, the create button's role gate, the project query's guard and retry
 * rule, and the empty-state texts. The backend read is a parameter.
 */
module ProjectsPage {
  import opened Outcomes
  import opened Text
  import opened Lists
  import opened Records

  /** Search on the name or the description (a null description searches as `''`), ignoring case. */
  predicate MatchesSearch(p: Project, search: string) {
    IncludesIgnoringCase(p.name, search) || IncludesIgnoringCase(p.description.GetOr(""), search)
  }

  /** The `filteredProjects` predicate. */
  predicate ProjectMatches(p: Project, search: string, statusFilter: string, priorityFilter: string) {
    MatchesSearch(p, search) && MatchesFilter(p.status, statusFilter) && MatchesFilter(p.priority, priorityFilter)
  }

  /** `filteredProjects`: the projects that match, in their fetched order. */
  function FilteredProjects(projects: seq<Project>, search: string, statusFilter: string, priorityFilter: string)
    : (r: seq<Project>)
    ensures |r| <= |projects|
    ensures forall i :: 0 <= i < |r| ==> r[i] in projects && ProjectMatches(r[i], search, statusFilter, priorityFilter)
    ensures forall i :: 0 <= i < |projects| && ProjectMatches(projects[i], search, statusFilter, priorityFilter) ==>
      projects[i] in r
  {
    Filter(projects, p => ProjectMatches(p, search, statusFilter, priorityFilter))
  }

  /** Filtering the concatenation of two lists filters each: the result keeps the fetched order. */
  lemma FilteredKeepsOrder(a: seq<Project>, b: seq<Project>, search: string, statusFilter: string, priorityFilter: string)
    ensures FilteredProjects(a + b, search, statusFilter, priorityFilter) ==
            FilteredProjects(a, search, statusFilter, priorityFilter) + FilteredProjects(b, search, statusFilter, priorityFilter)
  {
    FilterConcat(a, b, p => ProjectMatches(p, search, statusFilter, priorityFilter));
  }

  /** The empty search matches every project. */
  lemma EmptySearchMatches(p: Project)
    ensures MatchesSearch(p, "")
  {
    assert ToLower("") == "";
    IncludesEmpty(ToLower(p.name));
  }

  /** With an empty search and both filters at `all`, every project is listed. */
  lemma NoFiltersListsAll(projects: seq<Project>)
    ensures FilteredProjects(projects, "", "all", "all") == projects
  {
    forall i | 0 <= i < |projects| ensures ProjectMatches(projects[i], "", "all", "all") {
      EmptySearchMatches(projects[i]);
    }
    FilterKeepsAll(projects, p => ProjectMatches(p, "", "all", "all"));
  }

  /** The search ignores case: a search and its lower-cased form list the same projects. */
  lemma SearchIgnoresCase(p: Project, search: string)
    ensures MatchesSearch(p, search) == MatchesSearch(p, ToLower(search))
  {
    ToLowerIdempotent(search);
  }

  /** A specific status filter lists only projects with exactly that status; a null status never matches it. */
  lemma StatusFilterExact(projects: seq<Project>, search: string, status: string, priorityFilter: string)
    requires status != "all"
    ensures forall q :: q in FilteredProjects(projects, search, status, priorityFilter) ==> q.status == Some(status)
  {
  }

  /** `canCreateProjects`: admins and managers only. */
  predicate CanCreateProjects(userRole: Option<string>) {
    Is(userRole, Admin) || Is(userRole, Manager)
  }

  /** The query runs only when both the profile and the user are known. */
  predicate QueryEnabled(hasProfile: bool, hasUser: bool) {
    hasProfile && hasUser
  }

  const NotAuthenticated: string := "User not authenticated"

  /**
   * `fetchProjects`, given the backend's reply (an error message, or data that
   * may be null): without a profile and a user it throws before reading;
   * a backend error is rethrown with a prefix; null data is an empty list.
   */
  function FetchProjects(hasProfile: bool, hasUser: bool, reply: Result<Option<seq<Project>>, string>)
    : (r: Result<seq<Project>, string>)
    ensures !(hasProfile && hasUser) ==> r == Err(NotAuthenticated)
    ensures hasProfile && hasUser && reply.Err? ==> r == Err("Failed to fetch projects: " + reply.error)
    ensures hasProfile && hasUser && reply.Ok? ==> r == Ok(reply.value.GetOr([]))
  {
    if !hasProfile || !hasUser then Err(NotAuthenticated)
    else match reply
      case Err(message) => Err("Failed to fetch projects: " + message)
      case Ok(data) => Ok(data.GetOr([]))
  }

  /** An enabled query never fails for want of a user; a disabled one would always fail. */
  lemma EnabledQueryIsAuthenticated(hasProfile: bool, hasUser: bool, reply: Result<Option<seq<Project>>, string>)
    ensures QueryEnabled(hasProfile, hasUser) <==> FetchProjects(hasProfile, hasUser, reply) != Err(NotAuthenticated)
  {
    if QueryEnabled(hasProfile, hasUser) && reply.Err? {
      var m := "Failed to fetch projects: " + reply.error;
      assert m[0] != NotAuthenticated[0];
    }
  }

  /**
   * The query's `retry` rule, as written: no retry when the message mentions
   * `permission` or `authentication`; otherwise retry while fewer than 3
   * failures have been retried (`failureCount` counts the failures before this one).
   */
  predicate ShouldRetry(failureCount: nat, message: string) {
    if Includes(message, "permission") || Includes(message, "authentication") then false
    else failureCount < 3
  }

  /**
   * The error the fetch throws without a user names no `authentication`, so the
   * rule retries it.
   */
  lemma NotAuthenticatedIsRetried(m: string)
    requires m == NotAuthenticated
    ensures ShouldRetry(0, m)
  {
    NoPermissionMentioned(m);
    NoAuthenticationMentioned(m);
  }

  lemma NoPermissionMentioned(m: string)
    requires m == NotAuthenticated
    ensures !Includes(m, "permission")
  {
    NoStartNoMatch(m, "permission", |m|);
  }

  lemma NoAuthenticationMentioned(m: string)
    requires m == NotAuthenticated
    ensures !Includes(m, "authentication")
  {
    assert |m| == 22 && m[..9] == "User not ";
    NoStartNoMatch(m, "authentication", 9);
  }

  /**
   * A needle cannot occur where no long-enough suffix of `s` is left after the
   * first `k` characters, none of which starts the needle.
   */
  lemma {:induction false} NoStartNoMatch(s: string, needle: string, k: nat)
    requires needle != [] && k <= |s| && |s| - k < |needle|
    requires needle[0] !in s[..k]
    ensures !Includes(s, needle)
    decreases |s|
  {
    if |s| > 0 {
      if k > 0 {
        assert s[0] in s[..k];
        assert s[1..][..k - 1] == s[1..k];
        NoStartNoMatch(s[1..], needle, k - 1);
      } else {
        NoStartNoMatch(s[1..], needle, 0);
      }
    }
  }

  /**
   * The retry rule as the comment beside it describes it: authentication
   * errors, including the one the fetch itself throws, are not retried.
   */
  predicate ShouldRetryAuthAware(failureCount: nat, message: string) {
    if Includes(message, "permission") || Includes(message, "authenticat") then false
    else failureCount < 3
  }

  /** The corrected rule never retries the fetch's own authentication error, and otherwise agrees with the rule as written on every message that does not mention authentication. */
  lemma AuthAwareRetry(failureCount: nat, message: string)
    ensures !ShouldRetryAuthAware(failureCount, NotAuthenticated)
    ensures !Includes(message, "authenticat") ==>
      ShouldRetryAuthAware(failureCount, message) == ShouldRetry(failureCount, message)
  {
    var m := NotAuthenticated;
    assert OccursAt(m, "authenticat", 9);
    IncludesIffOccurs(m, "authenticat");
    if !Includes(message, "authenticat") {
      NotIncludesLonger(message, "authenticat", "authentication");
    }
  }

  /** The number of attempts made when every attempt fails, counting from failure `count`. */
  function AttemptsWhenFailing(message: string, count: nat): (n: nat)
    decreases 3 - count
  {
    if ShouldRetryAuthAware(count, message) then AttemptsWhenFailing(message, count + 1) else count + 1
  }

  /** Under the corrected rule a failing query runs four times, or once when its message rules out retrying. */
  lemma {:induction false} AttemptsBound(message: string, count: nat)
    requires count <= 3
    ensures var refused := Includes(message, "permission") || Includes(message, "authenticat");
      AttemptsWhenFailing(message, count) == if refused then count + 1 else 4
    decreases 3 - count
  {
    if ShouldRetryAuthAware(count, message) {
      AttemptsBound(message, count + 1);
    }
  }

  /** A string without `needle` contains nothing that starts with `needle`. */
  lemma NotIncludesLonger(s: string, needle: string, longer: string)
    requires StartsWith(longer, needle) && !Includes(s, needle)
    ensures !Includes(s, longer)
  {
    IncludesIffOccurs(s, needle);
    IncludesIffOccurs(s, longer);
  }

  /** Any search text or non-`all` filter counts as filtering. */
  predicate Filtering(search: string, statusFilter: string, priorityFilter: string) {
    search != "" || statusFilter != "all" || priorityFilter != "all"
  }

  const AdjustFiltersText: string := "Try adjusting your search or filters"
  const GetStartedText: string := "Get started by creating your first project"

  /** The empty state's hint. */
  function EmptyStateText(search: string, statusFilter: string, priorityFilter: string): (t: string)
    ensures t == AdjustFiltersText <==> Filtering(search, statusFilter, priorityFilter)
  {
    if Filtering(search, statusFilter, priorityFilter) then AdjustFiltersText else GetStartedText
  }

  /** The empty state's Create Project button. */
  predicate ShowsCreateButton(userRole: Option<string>, search: string, statusFilter: string, priorityFilter: string) {
    CanCreateProjects(userRole) && !Filtering(search, statusFilter, priorityFilter)
  }

  /**
   * The Create Project button appears beside the getting-started hint only,
   * and only when no project at all was fetched, since nothing is filtered out.
   */
  lemma CreateButtonOnlyWhenNothingFetched(projects: seq<Project>, userRole: Option<string>,
                                           search: string, statusFilter: string, priorityFilter: string)
    requires ShowsCreateButton(userRole, search, statusFilter, priorityFilter)
    requires FilteredProjects(projects, search, statusFilter, priorityFilter) == []
    ensures EmptyStateText(search, statusFilter, priorityFilter) == GetStartedText
    ensures projects == []
  {
    NoFiltersListsAll(projects);
  }
}
