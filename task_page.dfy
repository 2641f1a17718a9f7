/** The task list screen, pages/Task.js: the search and filter over the
    loaded tasks, and the request that loads them. The tasks arrive as JSON,
    so their status and priority are plain strings here. */
module TaskPage {
  import opened Wrappers
  import opened Text
  import opened Session
  import opened Pages
  import Seqs
  import WorkingHoursPage

  /** The fields of a loaded task that the screen reads. */
  datatype TaskView = TaskView(title: string, description: string, status: string, priority: string)

  const All := "all"

  /** One task passes the search and both filters. */
  predicate Matches(t: TaskView, search: string, statusFilter: string, priorityFilter: string) {
    var term := ToLower(search);
    && (Contains(ToLower(t.title), term) || Contains(ToLower(t.description), term))
    && (statusFilter == All || t.status == statusFilter)
    && (priorityFilter == All || t.priority == priorityFilter)
  }

  /** `filteredTasks`: nothing for a list not loaded yet, otherwise the
      matching tasks in their order. */
  function FilteredTasks(tasks: Option<seq<TaskView>>, search: string, statusFilter: string, priorityFilter: string)
    : (r: seq<TaskView>)
    ensures tasks.None? ==> r == []
    ensures tasks.Some? ==> Seqs.IsSubseq(r, tasks.value)
    ensures tasks.Some? ==> forall t :: t in r <==> t in tasks.value && Matches(t, search, statusFilter, priorityFilter)
    ensures tasks.Some? ==> forall t :: multiset(r)[t] ==
                                      if Matches(t, search, statusFilter, priorityFilter) then multiset(tasks.value)[t] else 0
  {
    if tasks.None? then []
    else
      Seqs.FilterMultiplicity(tasks.value, (t: TaskView) => Matches(t, search, statusFilter, priorityFilter));
      Seqs.Filter(tasks.value, (t: TaskView) => Matches(t, search, statusFilter, priorityFilter))
  }

  /** With an empty search and both filters on 'all' every task is shown, in order. */
  lemma NoFilterShowsAll(tasks: seq<TaskView>)
    ensures FilteredTasks(Some(tasks), "", All, All) == tasks
  {
    forall t | t in tasks ensures Matches(t, "", All, All) {
      ContainsEmpty(ToLower(t.title));
    }
    Seqs.FilterAll(tasks, (t: TaskView) => Matches(t, "", All, All));
  }

  lemma LowerIdempotent(s: string)
    ensures ToLower(ToLower(s)) == ToLower(s)
  {
  }

  /** The search ignores the case of the term. */
  lemma SearchIgnoresCase(tasks: Option<seq<TaskView>>, search: string, statusFilter: string, priorityFilter: string)
    ensures FilteredTasks(tasks, ToLower(search), statusFilter, priorityFilter)
         == FilteredTasks(tasks, search, statusFilter, priorityFilter)
  {
    LowerIdempotent(search);
    if tasks.Some? {
      Seqs.FilterCongruent(tasks.value,
        (t: TaskView) => Matches(t, ToLower(search), statusFilter, priorityFilter),
        (t: TaskView) => Matches(t, search, statusFilter, priorityFilter));
    }
  }

  /** A status filter other than 'all' keeps exactly the tasks with that status. */
  lemma StatusFilterExact(tasks: seq<TaskView>, status: string, t: TaskView)
    requires status != All && t in tasks
    ensures t in FilteredTasks(Some(tasks), "", status, All) <==> t.status == status
  {
    ContainsEmpty(ToLower(t.title));
  }

  /** The requests that load the list. */
  datatype TaskRequest = GetTasks | InspectTasks(id: string)

  /** `getAllTask`'s endpoint: POST /api/tasks/inspect with the target's id
      for an admin with a target user, GET /api/tasks otherwise. The admin
      flag is computed without a guard while rendering (`None`: it throws). */
  function TaskEndpoint(auth: Option<AuthInfo>, target: Option<TargetUser>): (r: Option<TaskRequest>)
    ensures r.None? <==> UnguardedAdmin(auth).None?
    ensures r.Some? ==> (r.value.InspectTasks? <==> target.Some? && Truthy(target.value.userId) && IsAdmin(auth))
    ensures r.Some? && r.value.InspectTasks? ==> r.value.id == target.value.userId.value
  {
    var admin := UnguardedAdmin(auth);
    if admin.None? then None
    else if target.Some? && Truthy(target.value.userId) && admin.value then Some(InspectTasks(target.value.userId.value))
    else Some(GetTasks)
  }

  /** Unlike the working-hours screens, the task screen does not compare the
      admin's own email with the target's: an admin whose target is their
      own account inspects it, where Sleep.js asks for the plain list. */
  lemma TaskEndpointIgnoresEmail(auth: AuthInfo, target: TargetUser)
    requires auth.info.roles.Some? && IsAdmin(Some(auth))
    requires Truthy(target.userId) && auth.info.email == target.userEmail
    ensures TaskEndpoint(Some(auth), Some(target)) == Some(InspectTasks(target.userId.value))
    ensures WorkingHoursPage.SleepEndpoint(Some(auth), Some(target)) == Some(WorkingHoursPage.GetSleeps)
  {
  }

  /** What loading leaves in the task list and the error: the response data,
      or an empty list and the server's message (possibly none) on failure. */
  function AfterLoad(answer: Answer<Option<seq<TaskView>>>): (r: (Option<seq<TaskView>>, Option<string>))
    ensures answer.Failed? ==> r.0 == Some([]) && r.1 == answer.error
    ensures answer.Answered? ==> r.0 == answer.data && r.1.None?
  {
    match answer
    case Answered(data) => (data, None)
    case Failed(error) => (Some([]), error)
  }
}
