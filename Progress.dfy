/** The "Task Progress" card: an unrounded progress value for the bar and
    its rounding for the label. */
module Progress {
  import opened Values
  import opened Records
  import Percent
  import Stats

  /** `num / den`, kept exact. */
  datatype Ratio = Ratio(num: nat, den: nat)

  /** What the card shows: the bar is filled to `value` percent, the label
      reads `shown`%. */
  datatype TaskProgressView = TaskProgressView(completed: nat, total: nat, value: Ratio, shown: nat)

  /** `TaskProgress`: nothing is rendered unless the tasks are an array (an
      empty array does render); the progress is `completed / total * 100`,
      or 0 for no tasks, and the label rounds it. */
  function TaskProgress(tasks: ListValue<Task>): (r: Option<TaskProgressView>)
    ensures r.Some? <==> tasks.List?
    ensures r.Some? ==>
              var v := r.value;
              && v.total == |tasks.items|
              && v.completed == multiset(TaskStatuses(tasks.items))[Some(Completed)]
              && v.completed <= v.total
              && v.value.den > 0
              && v.value.num <= 100 * v.value.den
              && (v.total == 0 ==> v.value.num == 0)
              && (v.total > 0 ==> v.value.num * v.total == 100 * v.completed * v.value.den)
              && Percent.RoundsTo(v.value.num, v.value.den, v.shown)
  {
    if !tasks.List? then None
    else
      var total := |tasks.items|;
      var completed := Occurrences(TaskStatuses(tasks.items), Completed);
      var value := if total > 0 then Ratio(100 * completed, total) else Ratio(0, 1);
      assert value.num <= 100 * value.den by {
        if total > 0 { Percent.MulMonotone(completed, total, 100); }
      }
      Some(TaskProgressView(completed, total, value, Percent.Round(value.num, value.den)))
  }

  /** The card agrees with the statistics: same counts, and its rounded
      label is the completion percentage on the "Total Tasks" and "Tasks
      Completed" cards. */
  lemma ProgressMatchesCompletion(tasks: ListValue<Task>)
    requires tasks.List?
    ensures var v := TaskProgress(tasks).value;
      && v.total == Stats.GetTaskStats(tasks).total
      && v.completed == Stats.GetTaskStats(tasks).completed
      && v.shown == Stats.CompletionPercentage(tasks)
  {
  }
}
