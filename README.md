# Admin dashboard statistics, modelled in Dafny

The admin dashboard of this task-management front end (the `AdminDashboard`
React component) reads three lists from the store — tasks, projects and
users — and derives everything it shows from them on each render: task
counts per status, project counts, a completion percentage, the share of
active projects, the number of admins, a progress bar, the first five tasks
of the list with status chips, and a table of the first five projects with up to
three team avatars and a `+n` overflow badge. A spinner replaces the page
while any of the three lists is loading.

This project restates those derivation rules as pure Dafny functions over
sequences of records and proves what they promise: each count is bounded
by the list length, the status filters are disjoint, the percentages lie in
[0, 100] and never divide by zero, the rounding is `Math.round`'s, and the
cards and panels on one page agree with each other.

Modules, one per part of the component:

- `Values` — JavaScript value shapes: `Option`, `ListValue` (missing,
  not an array, or an array), truthiness of optional strings, `slice(0, n)`,
  `map`, and `filter(...).length` counting.
- `Records` — tasks, projects, team members, users and the signed-in
  account, reduced to the fields the dashboard reads.
- `Percent` — `Math.round` of a non-negative ratio in exact integer
  arithmetic: for x >= 0, `Math.round(x)` is floor(x + 1/2), so the rounded
  percentage of c out of t is (200c + t) div 2t.
- `Stats` — `getTaskStats`, `getProjectStats`, `getCompletionPercentage`,
  the active-projects trend, the team-member and admin counts.
- `Progress` — the `TaskProgress` card.
- `Activity` — the `RecentActivity` list.
- `ProjectsTable` — the projects overview table.
- `Dashboard` — the loading gate and the whole page.

The spinner shows while any one of the three lists is loading
(`tasksLoading || projectsLoading || usersLoading`, AdminDashboard.js:167);
`Dashboard.Render` states this.

Two things the model makes visible without calling them defects: the
"Active Projects" card shows the total number of projects as its value,
and its trend reads "% completed" while it is the share of active
projects; `Dashboard.Render` states both.

A few definitions carry no contract of their own because their users'
contracts describe them: `Values.Truthy` (the `||` fallbacks at lines 137
and 214, and the ternary `task.dueDate ? … : 'No due date'` at line 132)
through `Activity.ChipLabel`, `Activity.DueLineFor` and
`Dashboard.WelcomeName`; `Values.LengthOrZero` (`tasks?.length || 0` at
line 318, and the length in `team?.length > 3` at line 335 and behind
`team?.slice(0, 3)` at line 325) through `ProjectsTable.RowFor`,
`ProjectsTable.Overflow` and `ProjectsTable.TeamAvatars`;
`Activity.IconColor` (the icons' `color` props at lines 124-126) through
`Activity.IconAgreesWithChip` and `Activity.RowFor`; and
`Dashboard.AnyLoading` (the gate at line 167) through `Dashboard.Render`.

## Model

| member | source | states |
|---|---|---|
| Values.Take | src/features/dashboard/AdminDashboard.js:118 | `slice(0, n)` yields a prefix of the list of length min(n, length) |
| Values.Map | src/features/dashboard/AdminDashboard.js:118-147 | `map` yields one result per element, in list order |
| Values.Occurrences | src/features/dashboard/AdminDashboard.js:181-183 | `filter(x => x === v).length` is at most the length, equals the number of occurrences of `v` in the multiset of fields, and is 0 exactly when `v` does not occur |
| Values.OccurrencesOfTwo | src/features/dashboard/AdminDashboard.js:193-194 | counts over two different strings add up to at most the length |
| Values.OccurrencesOfThree | src/features/dashboard/AdminDashboard.js:181-183 | counts over three different strings add up to at most the length, and to exactly the length iff every field is one of the three |
| Percent.Round | src/features/dashboard/AdminDashboard.js:201 | the result n satisfies n - 1/2 <= num/den < n + 1/2, the definition of `Math.round` for a non-negative ratio |
| Percent.RoundingIsUnique | src/features/dashboard/AdminDashboard.js:201 | at most one integer satisfies that definition, so any two roundings of the same ratio agree |
| Percent.Percentage | src/features/dashboard/AdminDashboard.js:201 | the rounded percentage of part over a non-zero whole is the `Math.round` of 100·part/whole; it is in [0, 100] when part <= whole, 0 for part 0 and 100 for part = whole |
| Percent.PercentageIsZeroIff | src/features/dashboard/AdminDashboard.js:247 | a percentage reads 0 iff 200·part < whole, so a non-zero part can still show 0% |
| Stats.GetTaskStats | src/features/dashboard/AdminDashboard.js:175-185 | all zeros for a missing or non-array task list; otherwise the total is the length and each status count is the number of tasks whose status is exactly that string; each count is at most the total |
| Stats.TaskStatsPartition | src/features/dashboard/AdminDashboard.js:179-184 | completed + in-progress + pending <= total, with equality iff every task's status is one of the three |
| Stats.GetProjectStats | src/features/dashboard/AdminDashboard.js:187-196 | all zeros for a missing or non-array project list; otherwise the total is the length, the active and completed counts are exact-match counts, and active + completed <= total |
| Stats.CompletionPercentage | src/features/dashboard/AdminDashboard.js:198-203 | 0 when there are no tasks; otherwise the `Math.round` of 100·completed/total; always in [0, 100]; 100 when every task is completed |
| Stats.ActiveTrend | src/features/dashboard/AdminDashboard.js:247 | 0 when no project is active; otherwise the total is non-zero (no division by zero) and the trend is the `Math.round` of 100·active/total; always in [0, 100] |
| Stats.ActiveGuardMatchesTotalGuard | src/features/dashboard/AdminDashboard.js:247 | guarding on the active count gives the same trend as guarding on the total |
| Stats.TeamMembers | src/features/dashboard/AdminDashboard.js:253 | the "Team Members" value is the user-list length, 0 for a missing list (a non-array list never reaches line 253, because line 207 throws first) |
| Stats.AdminCount | src/features/dashboard/AdminDashboard.js:207 | 0 for a missing user list; otherwise the number of users whose role is exactly "admin"; never more than the "Team Members" value |
| Progress.TaskProgress | src/features/dashboard/AdminDashboard.js:70-92 | rendered iff the tasks are an array (an empty one included); the progress equals 100·completed/total exactly, is 0 for no tasks, lies in [0, 100], and the label is its `Math.round` |
| Progress.ProgressMatchesCompletion | src/features/dashboard/AdminDashboard.js:75-87 | the progress card's counts are the task statistics' and its rounded label equals the completion percentage |
| Activity.ChipLabel | src/features/dashboard/AdminDashboard.js:137 | the chip label is never blank: the status when it is a non-empty string, "pending" otherwise |
| Activity.ChipColor | src/features/dashboard/AdminDashboard.js:138-141 | success iff the status is "completed", warning iff it is "in-progress", error for anything else including no status |
| Activity.IconFor | src/features/dashboard/AdminDashboard.js:124-126 | a row has a status icon iff its status is one of the three known statuses |
| Activity.IconAgreesWithChip | src/features/dashboard/AdminDashboard.js:124-141 | whenever a row shows an icon, the icon's colour is the chip's colour |
| Activity.UnsetStatusLooksPending | src/features/dashboard/AdminDashboard.js:124-141 | a task with no or an empty status gets the same chip label and colour as a pending task, and no icon where a pending task has one |
| Activity.DueLineFor | src/features/dashboard/AdminDashboard.js:132 | "No due date" iff the due date is missing or empty; otherwise the line carries the task's own due date |
| Activity.RowFor | src/features/dashboard/AdminDashboard.js:119-145 | a list item carries the task's title; its chip label is `task.status || 'pending'` (never blank); its chip colour is success iff the task is completed, warning iff in progress, error otherwise; its icon appears iff the status is one of the three known ones and then has the chip's colour; its due line is the task's own date, or "No due date" when that is missing or empty |
| Activity.RecentActivity | src/features/dashboard/AdminDashboard.js:106-118 | nothing unless the tasks are an array; otherwise min(5, n) rows, row k showing task k's title, icon, due line, chip label and colour |
| ProjectsTable.Initial | src/features/dashboard/AdminDashboard.js:331 | `charAt(0)`: a prefix of the name of length min(1, length) |
| ProjectsTable.AvatarFor | src/features/dashboard/AdminDashboard.js:326-333 | an avatar shows the member's name as tooltip, the member's picture, and the name's first character (none for an empty name) |
| ProjectsTable.TeamAvatars | src/features/dashboard/AdminDashboard.js:325-334 | min(3, n) avatars for the first members of the team, in order, each carrying the member's name, picture and initial; none when the team field is absent |
| ProjectsTable.Overflow | src/features/dashboard/AdminDashboard.js:335-339 | the badge appears iff the team has more than 3 members and then shows n - 3 > 0 |
| ProjectsTable.TeamIsFullyAccounted | src/features/dashboard/AdminDashboard.js:325-339 | avatars plus the badge's number equal the team size |
| ProjectsTable.RowFor | src/features/dashboard/AdminDashboard.js:309-339 | the row shows the name and raw status; the chip is green iff the status is "active" and default otherwise; the task count is the task-list length or 0 when absent |
| ProjectsTable.ProjectsOverview | src/features/dashboard/AdminDashboard.js:307 | requires an array (the source slices it unguarded); min(5, n) rows, row k for project k |
| Dashboard.WelcomeName | src/features/dashboard/AdminDashboard.js:214 | the greeting is never blank: the user's name when non-empty, "Admin User" otherwise |
| Dashboard.Render | src/features/dashboard/AdminDashboard.js:167-173 | the spinner is shown iff any one of the three lists is loading; otherwise the greeting is `WelcomeName`, each stat card has its title, value, trend number and trend text ("Active Projects" showing the project total and the active share as "% completed"), and each panel is the function above it |
| Dashboard.PageIsConsistent | src/features/dashboard/AdminDashboard.js:205-265 | on a rendered page the greeting is never blank, both completion trends agree and are in [0, 100], completed <= total tasks, admins <= team members, the progress label equals the completion trend, and at most five tasks and five projects are listed |

## Left out

- `src/features/projects/projectSlice.js` — the HTTP client, its bearer-token interceptor and the request thunks are network I/O with no logic to prove; the tasks and users slices are not part of this model.
- The dispatch of the three fetches on mount and the store wiring (`useEffect`, `useSelector`): the store's contents are the `Dashboard.Snapshot` parameter.
- All layout and styling (JSX, MUI components, gradients, icons' sizes, links, the `StatCard` `value || 0` fallback, which never applies because every value is a number).
- Floating-point behaviour: `completed / total * 100` and `Math.round` are modelled on exact rationals, so the model makes no claim of bit-for-bit agreement with IEEE doubles at ties.
- Date display: `toLocaleDateString` depends on the host's locale, so a task's due line keeps the raw date and the project table's due-date cell is not modelled.
- `null` entries inside an array: for counting they behave like records without a status or role, which is how the model treats them; the exceptions they cause when rendered are not modelled — in the recent-activity list (`task._id`, `task.status` on `null`, lines 119-137) and in the projects table (`project._id`, `project.name` on `null`, lines 308-309).
- Missing titles and names: `Task.title`, `Project.name` and `Member.name` are plain strings, so the model cannot express a task without a title or a project without a name, nor the exception `member.name.charAt(0)` raises for a team member without a name (line 331).
- Fields of unexpected type: a non-string value (a numeric status, say) is modelled as absent, where the chip would show it instead of "pending"; and a project's `tasks` and `team`, typed as optional sequences, cannot be non-array values — the model does not capture that `team.slice` throws on a non-array object (line 325) or that `tasks?.length || 0` reads a string's length (line 318).
- `Dashboard.Render`: a non-array user list or a project list that is not an array makes the source throw; the model rules these out by precondition instead of modelling the exception.
- `ProjectsTable.Initial`: `charAt` counts UTF-16 code units, the model counts Dafny characters.
- React keys (`_id`) and tooltips' layout play no part in what is shown.
