/** `AdminDashboard`: the loading gate, the four stat cards and the three
    panels, derived from one snapshot of the store. */
module Dashboard {
  import opened Values
  import opened Records
  import Stats
  import Progress
  import Activity
  import ProjectsTable

  /** What the component reads from the auth, tasks, projects and users
      slices of the store. */
  datatype Snapshot = Snapshot(
    account: Option<Account>,
    tasks: ListValue<Task>, tasksLoading: bool,
    projects: ListValue<Project>, projectsLoading: bool,
    users: ListValue<User>, usersLoading: bool)

  /** A stat card: its title, its big value and the number leading its
      trend line, which the card follows with `trendText`. */
  datatype StatCard = StatCard(title: string, value: nat, trend: nat, trendText: string)

  datatype Screen =
    | Spinner
    | Page(
        welcome: string,
        totalTasks: StatCard,
        activeProjects: StatCard,
        teamMembers: StatCard,
        tasksCompleted: StatCard,
        progress: Option<Progress.TaskProgressView>,
        activity: Option<seq<Activity.ActivityRow>>,
        projectRows: seq<ProjectsTable.ProjectRow>)

  const DefaultName := "Admin User"

  /** The loading gate: a spinner while any one of the three slices is
      still loading. */
  predicate AnyLoading(s: Snapshot)
  {
    s.tasksLoading || s.projectsLoading || s.usersLoading
  }

  /** The greeting `user?.name || 'Admin User'`: the signed-in user's name
      when it is non-empty, the default otherwise; never blank. */
  function WelcomeName(account: Option<Account>): (r: string)
    ensures r != ""
    ensures account.Some? && Truthy(account.value.name) ==> r == account.value.name.value
    ensures !(account.Some? && Truthy(account.value.name)) ==> r == DefaultName
  {
    if account.Some? && Truthy(account.value.name) then account.value.name.value else DefaultName
  }

  /** The whole render. Past the gate the source calls `users?.filter` and
      `projects.slice`, which throw on a non-array user list and on anything
      but a project array; those are the requirements. */
  function Render(s: Snapshot): (r: Screen)
    requires AnyLoading(s) || (s.projects.List? && !s.users.NotList?)
    ensures r.Spinner? <==> AnyLoading(s)
    ensures r.Page? ==>
              && r.welcome == WelcomeName(s.account)
              && r.totalTasks == StatCard("Total Tasks", Stats.GetTaskStats(s.tasks).total,
                                          Stats.CompletionPercentage(s.tasks), "% completed")
              && r.activeProjects == StatCard("Active Projects", Stats.GetProjectStats(s.projects).total,
                                              Stats.ActiveTrend(s.projects), "% completed")
              && r.teamMembers == StatCard("Team Members", Stats.TeamMembers(s.users),
                                           Stats.AdminCount(s.users), " admins")
              && r.tasksCompleted == StatCard("Tasks Completed", Stats.GetTaskStats(s.tasks).completed,
                                              Stats.CompletionPercentage(s.tasks), "% of total")
              && r.progress == Progress.TaskProgress(s.tasks)
              && r.activity == Activity.RecentActivity(s.tasks)
              && r.projectRows == ProjectsTable.ProjectsOverview(s.projects)
  {
    if AnyLoading(s) then Spinner
    else
      var taskStats := Stats.GetTaskStats(s.tasks);
      var projectStats := Stats.GetProjectStats(s.projects);
      var completion := Stats.CompletionPercentage(s.tasks);
      Page(
        WelcomeName(s.account),
        StatCard("Total Tasks", taskStats.total, completion, "% completed"),
        StatCard("Active Projects", projectStats.total, Stats.ActiveTrend(s.projects), "% completed"),
        StatCard("Team Members", Stats.TeamMembers(s.users), Stats.AdminCount(s.users), " admins"),
        StatCard("Tasks Completed", taskStats.completed, completion, "% of total"),
        Progress.TaskProgress(s.tasks),
        Activity.RecentActivity(s.tasks),
        ProjectsTable.ProjectsOverview(s.projects))
  }

  /** The page is consistent with itself: the greeting is never blank, the
      two completion trends agree and lie in [0, 100], no card counts more of
      a kind than it has in all, the progress label repeats the completion
      percentage, and at most five tasks and five projects are listed. */
  lemma PageIsConsistent(s: Snapshot)
    requires !AnyLoading(s) && s.projects.List? && !s.users.NotList?
    ensures var r := Render(s);
      && r.Page?
      && r.welcome != ""
      && r.totalTasks.trend == r.tasksCompleted.trend
      && r.totalTasks.trend <= 100 && r.activeProjects.trend <= 100
      && r.tasksCompleted.value <= r.totalTasks.value
      && r.teamMembers.trend <= r.teamMembers.value
      && (r.progress.Some? ==> r.progress.value.shown == r.totalTasks.trend)
      && (r.activity.Some? ==> |r.activity.value| <= Activity.RecentLimit)
      && |r.projectRows| <= ProjectsTable.ProjectLimit
  {
    if s.tasks.List? {
      Progress.ProgressMatchesCompletion(s.tasks);
    }
  }
}
