/** Client-side copies of the server's records, reduced to the fields the
    admin dashboard reads. A field the record may lack is an `Option`. */
module Records {
  import opened Values

  const Completed := "completed"
  const InProgress := "in-progress"
  const Pending := "pending"
  const Active := "active"
  const Admin := "admin"

  datatype Task = Task(title: string, status: Option<string>, dueDate: Option<string>)

  /** A member of a project's team, as shown in its avatar. */
  datatype Member = Member(name: string, avatar: Option<string>)

  /** `tasks` holds the identifiers of the project's tasks. */
  datatype Project = Project(
    name: string,
    status: Option<string>,
    tasks: Option<seq<string>>,
    team: Option<seq<Member>>)

  datatype User = User(role: Option<string>)

  /** The signed-in user of the auth slice. */
  datatype Account = Account(name: Option<string>)

  /** `tasks.map(task => task?.status)`. */
  function TaskStatuses(tasks: seq<Task>): seq<Option<string>>
  {
    Map(tasks, (t: Task) => t.status)
  }

  function ProjectStatuses(projects: seq<Project>): seq<Option<string>>
  {
    Map(projects, (p: Project) => p.status)
  }

  function Roles(users: seq<User>): seq<Option<string>>
  {
    Map(users, (u: User) => u.role)
  }
}
