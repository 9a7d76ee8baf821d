/** The statistics the admin dashboard derives from the task, project and
    user lists on every render. */
module Stats {
  import opened Values
  import opened Records
  import Percent

  datatype TaskStats = TaskStats(total: nat, completed: nat, inProgress: nat, pending: nat)

  datatype ProjectStats = ProjectStats(total: nat, active: nat, completed: nat)

  /** `getTaskStats`: all zeros unless the tasks are an array; otherwise the
      length and the number of tasks whose status is exactly each of the
      three known statuses. */
  function GetTaskStats(tasks: ListValue<Task>): (r: TaskStats)
    ensures !tasks.List? ==> r == TaskStats(0, 0, 0, 0)
    ensures tasks.List? ==> r.total == |tasks.items|
    ensures tasks.List? ==>
              && r.completed == multiset(TaskStatuses(tasks.items))[Some(Completed)]
              && r.inProgress == multiset(TaskStatuses(tasks.items))[Some(InProgress)]
              && r.pending == multiset(TaskStatuses(tasks.items))[Some(Pending)]
    ensures r.completed <= r.total && r.inProgress <= r.total && r.pending <= r.total
  {
    if !tasks.List? then TaskStats(0, 0, 0, 0)
    else
      var statuses := TaskStatuses(tasks.items);
      TaskStats(
        |tasks.items|,
        Occurrences(statuses, Completed),
        Occurrences(statuses, InProgress),
        Occurrences(statuses, Pending))
  }

  /** A task falls into at most one of the three counts, and every task is
      counted exactly when every status is one of the three known ones. */
  lemma TaskStatsPartition(tasks: ListValue<Task>)
    ensures var r := GetTaskStats(tasks);
      r.completed + r.inProgress + r.pending <= r.total
    ensures var r := GetTaskStats(tasks);
      tasks.List? ==>
        (r.completed + r.inProgress + r.pending == r.total
         <==> forall t :: t in tasks.items ==> t.status in {Some(Completed), Some(InProgress), Some(Pending)})
  {
    if tasks.List? {
      var statuses := TaskStatuses(tasks.items);
      OccurrencesOfThree(statuses, Completed, InProgress, Pending);
      forall t | t in tasks.items
        ensures t.status in statuses
      {
        var k :| 0 <= k < |tasks.items| && tasks.items[k] == t;
        assert statuses[k] == t.status;
      }
    }
  }

  /** `getProjectStats`: all zeros unless the projects are an array;
      otherwise the length and the active and completed counts, which are
      disjoint. */
  function GetProjectStats(projects: ListValue<Project>): (r: ProjectStats)
    ensures !projects.List? ==> r == ProjectStats(0, 0, 0)
    ensures projects.List? ==> r.total == |projects.items|
    ensures projects.List? ==>
              && r.active == multiset(ProjectStatuses(projects.items))[Some(Active)]
              && r.completed == multiset(ProjectStatuses(projects.items))[Some(Completed)]
    ensures r.active + r.completed <= r.total
  {
    if !projects.List? then ProjectStats(0, 0, 0)
    else
      var statuses := ProjectStatuses(projects.items);
      OccurrencesOfTwo(statuses, Active, Completed);
      ProjectStats(|projects.items|, Occurrences(statuses, Active), Occurrences(statuses, Completed))
  }

  /** `getCompletionPercentage`: 0 when there are no tasks, otherwise the
      rounded share of completed tasks. The `isNaN` fallback of the source
      cannot fire once the total is non-zero, so it has no counterpart. */
  function CompletionPercentage(tasks: ListValue<Task>): (r: nat)
    ensures r <= 100
    ensures GetTaskStats(tasks).total == 0 ==> r == 0
    ensures var s := GetTaskStats(tasks);
      s.total > 0 ==> Percent.RoundsTo(100 * s.completed, s.total, r)
    ensures var s := GetTaskStats(tasks);
      s.total > 0 && s.completed == s.total ==> r == 100
  {
    var s := GetTaskStats(tasks);
    if s.total == 0 then 0 else Percent.Percentage(s.completed, s.total)
  }

  /** The trend of the "Active Projects" card: guarded on the active count
      rather than on the total, which is enough because a non-zero active
      count implies a non-zero total. */
  function ActiveTrend(projects: ListValue<Project>): (r: nat)
    ensures r <= 100
    ensures GetProjectStats(projects).active == 0 ==> r == 0
    ensures var s := GetProjectStats(projects);
      s.active > 0 ==> s.total > 0 && Percent.RoundsTo(100 * s.active, s.total, r)
  {
    var s := GetProjectStats(projects);
    if s.active != 0 then Percent.Percentage(s.active, s.total) else 0
  }

  /** Guarding on the active count gives the same trend as guarding on the
      total would. */
  lemma ActiveGuardMatchesTotalGuard(projects: ListValue<Project>)
    ensures var s := GetProjectStats(projects);
      ActiveTrend(projects) == (if s.total == 0 then 0 else Percent.Percentage(s.active, s.total))
  {
  }

  /** The value of the "Team Members" card, `users?.length || 0`. A
      non-array user list never gets this far, because `users?.filter`
      throws first; the `NotList` case is only given a value to keep the
      function total. */
  function TeamMembers(users: ListValue<User>): (r: nat)
    ensures users.List? ==> r == |users.items|
    ensures !users.List? ==> r == 0
  {
    if users.List? then |users.items| else 0
  }

  /** `adminCount`: the users whose role is exactly "admin". A non-array
      value other than `null`/`undefined` makes `filter` throw, so it is
      excluded. */
  function AdminCount(users: ListValue<User>): (r: nat)
    requires !users.NotList?
    ensures users.Missing? ==> r == 0
    ensures users.List? ==> r == multiset(Roles(users.items))[Some(Admin)]
    ensures r <= TeamMembers(users)
  {
    if users.Missing? then 0 else Occurrences(Roles(users.items), Admin)
  }
}
