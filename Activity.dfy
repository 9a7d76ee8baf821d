/** The "Recent Activity" list: the first tasks, each with a status icon, a
    due-date line and a status chip. */
module Activity {
  import opened Values
  import opened Records

  /** The theme colours the chips and icons use. */
  datatype Color = Success | Warning | Error | DefaultColor

  datatype StatusIcon = CheckCircleIcon | WarningIcon | ErrorIcon

  /** The secondary line; the locale formatting of the date is not modelled,
      so a date is kept as the raw field. */
  datatype DueLine = NoDueDate | Due(date: string)

  datatype ActivityRow = ActivityRow(title: string, icon: Option<StatusIcon>, due: DueLine, chipLabel: string, chipColor: Color)

  const RecentLimit: nat := 5

  /** The chip label `task.status || 'pending'`: never blank, the status
      itself when it is a non-empty string. */
  function ChipLabel(status: Option<string>): (r: string)
    ensures r != ""
    ensures Truthy(status) ==> r == status.value
    ensures !Truthy(status) ==> r == Pending
  {
    if Truthy(status) then status.value else Pending
  }

  /** The chip colour: success for completed, warning for in progress, and
      error for everything else, a missing status included. */
  function ChipColor(status: Option<string>): (r: Color)
    ensures r == Success <==> status == Some(Completed)
    ensures r == Warning <==> status == Some(InProgress)
    ensures r == Error <==> status !in {Some(Completed), Some(InProgress)}
  {
    if status == Some(Completed) then Success
    else if status == Some(InProgress) then Warning
    else Error
  }

  /** The icon in front of the title: only the three known statuses have one. */
  function IconFor(status: Option<string>): (r: Option<StatusIcon>)
    ensures r.Some? <==> status in {Some(Completed), Some(InProgress), Some(Pending)}
  {
    if status == Some(Completed) then Some(CheckCircleIcon)
    else if status == Some(InProgress) then Some(WarningIcon)
    else if status == Some(Pending) then Some(ErrorIcon)
    else None
  }

  function IconColor(icon: StatusIcon): Color
  {
    match icon
    case CheckCircleIcon => Success
    case WarningIcon => Warning
    case ErrorIcon => Error
  }

  /** Whenever a row has an icon, the icon and the chip share a colour. */
  lemma IconAgreesWithChip(status: Option<string>)
    ensures IconFor(status).Some? ==> IconColor(IconFor(status).value) == ChipColor(status)
  {
  }

  /** A task with no status (or an empty one) shows the same chip as a
      pending task, and differs from it only by lacking the icon. */
  lemma UnsetStatusLooksPending(status: Option<string>)
    requires !Truthy(status)
    ensures ChipLabel(status) == ChipLabel(Some(Pending))
    ensures ChipColor(status) == ChipColor(Some(Pending)) == Error
    ensures IconFor(status) == None && IconFor(Some(Pending)) == Some(ErrorIcon)
  {
  }

  function DueLineFor(dueDate: Option<string>): (r: DueLine)
    ensures r.NoDueDate? <==> !Truthy(dueDate)
    ensures Truthy(dueDate) ==> r == Due(dueDate.value)
  {
    if Truthy(dueDate) then Due(dueDate.value) else NoDueDate
  }

  /** One list item: the task's title, its due line, the chip label
      `task.status || 'pending'`, the chip colour, and an icon that, when
      shown, has the chip's colour. */
  function RowFor(task: Task): (r: ActivityRow)
    ensures r.title == task.title
    ensures r.chipLabel == ChipLabel(task.status) && r.chipColor == ChipColor(task.status)
    ensures r.icon == IconFor(task.status) && r.due == DueLineFor(task.dueDate)
    ensures r.due.NoDueDate? <==> !Truthy(task.dueDate)
    ensures r.chipLabel != ""
    ensures r.icon.Some? <==> task.status in {Some(Completed), Some(InProgress), Some(Pending)}
    ensures r.icon.Some? ==> IconColor(r.icon.value) == r.chipColor
    ensures r.chipColor == Success <==> task.status == Some(Completed)
    ensures r.chipColor == Warning <==> task.status == Some(InProgress)
    ensures r.chipColor == Error <==> task.status !in {Some(Completed), Some(InProgress)}
  {
    ActivityRow(task.title, IconFor(task.status), DueLineFor(task.dueDate),
                ChipLabel(task.status), ChipColor(task.status))
  }

  /** `RecentActivity`: nothing unless the tasks are an array; otherwise
      the first five tasks (all of them when fewer), in list order. */
  function RecentActivity(tasks: ListValue<Task>): (r: Option<seq<ActivityRow>>)
    ensures r.Some? <==> tasks.List?
    ensures r.Some? ==>
              && |r.value| == Min(RecentLimit, |tasks.items|)
              && forall k :: 0 <= k < |r.value| ==>
                   && r.value[k].title == tasks.items[k].title
                   && r.value[k].chipLabel == ChipLabel(tasks.items[k].status)
                   && r.value[k].chipColor == ChipColor(tasks.items[k].status)
                   && r.value[k].icon == IconFor(tasks.items[k].status)
                   && r.value[k].due == DueLineFor(tasks.items[k].dueDate)
                   && r.value[k] == RowFor(tasks.items[k])
  {
    if tasks.List? then Some(Map(Take(tasks.items, RecentLimit), RowFor)) else None
  }
}
