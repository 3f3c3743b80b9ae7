/**
 * `TaskItem`: the priority badge colour and the overdue flag of one task row.
 */
module TaskItem {
  import opened Dates
  import opened Records

  /** `getPriorityVariant`: the badge variant for a priority. */
  function PriorityVariant(priority: string): (v: string)
    ensures v == "error" <==> priority == "high"
    ensures v == "warning" <==> priority == "medium"
    ensures v == "info" <==> priority == "low"
    ensures v == "default" <==> priority !in {"high", "medium", "low"}
  {
    match priority
    case "high" => "error"
    case "medium" => "warning"
    case "low" => "info"
    case _ => "default"
  }

  /** `isOverdue`: due strictly before `now` and not completed. */
  predicate IsOverdue(t: Task, now: Date) {
    Before(t.dueDate, now) && !t.completed
  }

  /** A completed task is never overdue, whatever its due date; an open task due before now always is. */
  lemma OverdueOnlyIfOpen(t: Task, now: Date)
    ensures t.completed ==> !IsOverdue(t, now)
    ensures !t.completed && Before(t.dueDate, now) ==> IsOverdue(t, now)
    ensures !Before(t.dueDate, now) ==> !IsOverdue(t, now)
  {
  }
}
