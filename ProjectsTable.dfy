/** The "Projects Overview" table: one row per shown project with its status
    chip, task count and team avatars. */
module ProjectsTable {
  import opened Values
  import opened Records
  import Activity

  datatype Avatar = Avatar(tooltip: string, src: Option<string>, initial: string)

  datatype ProjectRow = ProjectRow(
    name: string,
    chipLabel: Option<string>,
    chipColor: Activity.Color,
    taskCount: nat,
    avatars: seq<Avatar>,
    overflow: Option<nat>)

  const ProjectLimit: nat := 5
  const AvatarLimit: nat := 3

  /** `name.charAt(0)`: the first character, or the empty string for an
      empty name. */
  function Initial(name: string): (r: string)
    ensures |r| == Min(1, |name|)
    ensures r <= name
  {
    Take(name, 1)
  }

  /** A member's avatar: the name as tooltip, the picture, and the first
      character of the name in place of a missing picture. */
  function AvatarFor(m: Member): (r: Avatar)
    ensures r.tooltip == m.name && r.src == m.avatar
    ensures r.initial <= m.name && |r.initial| == Min(1, |m.name|)
  {
    Avatar(m.name, m.avatar, Initial(m.name))
  }

  /** `project.team?.slice(0, 3).map(…)`: the first three members, none
      when the project has no team field. */
  function TeamAvatars(team: Option<seq<Member>>): (r: seq<Avatar>)
    ensures |r| == Min(AvatarLimit, LengthOrZero(team))
    ensures forall k :: 0 <= k < |r| ==> r[k] == AvatarFor(team.value[k])
  {
    if team.Some? then Map(Take(team.value, AvatarLimit), AvatarFor) else []
  }

  /** The `+n` badge: present only when the team has more than three
      members, and then counting the members not shown. */
  function Overflow(team: Option<seq<Member>>): (r: Option<nat>)
    ensures r.Some? <==> LengthOrZero(team) > AvatarLimit
    ensures r.Some? ==> r.value > 0 && r.value == LengthOrZero(team) - AvatarLimit
  {
    if team.Some? && |team.value| > AvatarLimit then Some(|team.value| - AvatarLimit) else None
  }

  /** Avatars and badge together account for every team member exactly once. */
  lemma TeamIsFullyAccounted(team: Option<seq<Member>>)
    ensures |TeamAvatars(team)| + (if Overflow(team).Some? then Overflow(team).value else 0) == LengthOrZero(team)
  {
  }

  /** One table row: the status chip is labelled with the raw status and is
      green only for active projects; the task count is the length of the
      task list, 0 when there is none. */
  function RowFor(p: Project): (r: ProjectRow)
    ensures r.name == p.name && r.chipLabel == p.status
    ensures r.chipColor == Activity.Success <==> p.status == Some(Active)
    ensures r.chipColor in {Activity.Success, Activity.DefaultColor}
    ensures p.tasks.Some? ==> r.taskCount == |p.tasks.value|
    ensures p.tasks.None? ==> r.taskCount == 0
    ensures r.avatars == TeamAvatars(p.team) && r.overflow == Overflow(p.team)
  {
    ProjectRow(
      p.name,
      p.status,
      if p.status == Some(Active) then Activity.Success else Activity.DefaultColor,
      LengthOrZero(p.tasks),
      TeamAvatars(p.team),
      Overflow(p.team))
  }

  /** `projects.slice(0, 5).map(…)`: the first five projects, in order.
      The source calls `slice` without a guard, so anything but an array
      throws; that is the requirement here. */
  function ProjectsOverview(projects: ListValue<Project>): (r: seq<ProjectRow>)
    requires projects.List?
    ensures |r| == Min(ProjectLimit, |projects.items|)
    ensures forall k :: 0 <= k < |r| ==> r[k] == RowFor(projects.items[k])
  {
    Map(Take(projects.items, ProjectLimit), RowFor)
  }
}
