/**
 * `TaskList`: the status filter (all / pending / completed / overdue) and the sort
 * (priority / dueDate / title) applied to a copy of the task list.
 */
module TaskList {
  import opened Wrappers
  import opened Dates
  import opened Records
  import opened Lists
  import opened Sorting
  import Text
  import TaskItem

  predicate Completed(t: Task) {
    t.completed
  }

  /** The filter callback for the selected status filter. */
  function Keep(filter: string, now: Date): Task -> bool {
    (t: Task) =>
      if filter == "completed" then t.completed
      else if filter == "pending" then !t.completed
      else if filter == "overdue" then !t.completed && Before(t.dueDate, now)
      else true
  }

  /** `filteredTasks`. */
  function FilterTasks(tasks: seq<Task>, filter: string, now: Date): (r: seq<Task>)
    ensures SubseqOf(r, tasks)
  {
    FilterIsSubseq(tasks, Keep(filter, now));
    Filter(tasks, Keep(filter, now))
  }

  /** `priorityOrder[p]`; `None` for a priority the table does not list (the lookup is undefined). */
  function PriorityRank(p: string): (r: Option<int>)
    ensures r.Some? <==> p in {"high", "medium", "low"}
  {
    match p
    case "high" => Some(3)
    case "medium" => Some(2)
    case "low" => Some(1)
    case _ => None
  }

  /** The rank a sorted list descends by; unknown priorities are outside the model's sort claims. */
  function Rank(p: string): int {
    PriorityRank(p).GetOr(0)
  }

  /** The comparator's value on `(a, b)` for `sortBy`; `collate` stands for `localeCompare`. A
      subtraction involving an undefined rank is NaN, which `sort` treats as 0. */
  function Cmp(sortBy: string, collate: (string, string) -> int, a: Task, b: Task): int {
    if sortBy == "priority" then
      (if PriorityRank(a.priority).Some? && PriorityRank(b.priority).Some?
       then PriorityRank(b.priority).value - PriorityRank(a.priority).value else 0)
    else if sortBy == "dueDate" then Compare(a.dueDate, b.dueDate)
    else if sortBy == "title" then collate(a.title, b.title)
    else 0
  }

  /** The comparator passed to `sort`. */
  function Order(sortBy: string, collate: (string, string) -> int): (Task, Task) -> int {
    (a: Task, b: Task) => Cmp(sortBy, collate, a, b)
  }

  /** `sortedTasks`: the filtered list, sorted on a copy. */
  function Visible(tasks: seq<Task>, filter: string, sortBy: string, now: Date, collate: (string, string) -> int): (r: seq<Task>)
    ensures multiset(r) == multiset(FilterTasks(tasks, filter, now))
  {
    SortWith(FilterTasks(tasks, filter, now), Order(sortBy, collate))
  }

  // ---- filter properties ----

  /** "completed" keeps exactly the completed tasks and "pending" exactly the others. */
  lemma {:induction false} StatusFiltersKeep(tasks: seq<Task>, now: Date)
    ensures forall t :: t in FilterTasks(tasks, "completed", now) <==> t in tasks && t.completed
    ensures forall t :: t in FilterTasks(tasks, "pending", now) <==> t in tasks && !t.completed
  {
    FilterMembers(tasks, Keep("completed", now));
    FilterMembers(tasks, Keep("pending", now));
  }

  /** "completed" and "pending" partition the list. */
  lemma {:induction false} CompletedAndPendingPartition(tasks: seq<Task>, now: Date)
    ensures multiset(FilterTasks(tasks, "completed", now)) + multiset(FilterTasks(tasks, "pending", now)) == multiset(tasks)
  {
    FilterCongruent(tasks, Keep("completed", now), Completed);
    FilterCongruent(tasks, Keep("pending", now), Not(Completed));
    FilterPartition(tasks, Completed);
  }

  /** "overdue" keeps exactly the tasks the row shows the Overdue badge for; each of them is pending. */
  lemma {:induction false} OverdueFilterMatchesBadge(tasks: seq<Task>, now: Date)
    ensures forall t :: t in FilterTasks(tasks, "overdue", now) <==> t in tasks && TaskItem.IsOverdue(t, now)
    ensures forall t :: t in FilterTasks(tasks, "overdue", now) ==> t in FilterTasks(tasks, "pending", now)
    ensures |FilterTasks(tasks, "overdue", now)| == CountWhere(tasks, (t: Task) => TaskItem.IsOverdue(t, now))
  {
    FilterCongruent(tasks, Keep("overdue", now), (t: Task) => TaskItem.IsOverdue(t, now));
    FilterCount(tasks, (t: Task) => TaskItem.IsOverdue(t, now));
    FilterMembers(tasks, Keep("overdue", now));
    FilterMembers(tasks, Keep("pending", now));
  }

  /** "all", or any value the filter does not recognise, keeps every task. */
  lemma {:induction false} OtherFilterKeepsAll(tasks: seq<Task>, filter: string, now: Date)
    requires filter !in {"completed", "pending", "overdue"}
    ensures FilterTasks(tasks, filter, now) == tasks
  {
    FilterAll(tasks, Keep(filter, now));
  }

  // ---- sort properties ----

  /** "a may precede b" under the comparator for `sortBy`. */
  lemma OrderLe(sortBy: string, collate: (string, string) -> int, a: Task, b: Task)
    ensures LeOf(Order(sortBy, collate))(a, b) == (Cmp(sortBy, collate, a, b) <= 0)
  {
  }

  /** Sorting by due date orders the tasks earliest first. */
  lemma {:induction false} DueDateSort(tasks: seq<Task>, filter: string, now: Date, collate: (string, string) -> int)
    ensures var r := Visible(tasks, filter, "dueDate", now, collate);
      forall i, j | 0 <= i < j < |r| :: NotAfter(r[i].dueDate, r[j].dueDate)
  {
    var xs := FilterTasks(tasks, filter, now);
    var le := LeOf(Order("dueDate", collate));
    forall a, b, c | a in xs && b in xs && c in xs
      ensures le(a, b) || le(b, a)
      ensures le(a, b) && le(b, c) ==> le(a, c)
    {
      OrderLe("dueDate", collate, a, b);
      OrderLe("dueDate", collate, b, a);
      OrderLe("dueDate", collate, b, c);
      OrderLe("dueDate", collate, a, c);
      BeforeIsStrictTotalOrder(a.dueDate, b.dueDate, c.dueDate);
      BeforeIsStrictTotalOrder(c.dueDate, b.dueDate, a.dueDate);
    }
    SortWithSorted(xs, Order("dueDate", collate));
    var r := Visible(tasks, filter, "dueDate", now, collate);
    forall i, j | 0 <= i < j < |r| ensures NotAfter(r[i].dueDate, r[j].dueDate) {
      OrderLe("dueDate", collate, r[i], r[j]);
    }
  }

  /** Sorting by priority puts high before medium before low, when every priority is one of them. */
  lemma {:induction false} PrioritySort(tasks: seq<Task>, filter: string, now: Date, collate: (string, string) -> int)
    requires forall t <- tasks :: t.priority in {"high", "medium", "low"}
    ensures var r := Visible(tasks, filter, "priority", now, collate);
      forall i, j | 0 <= i < j < |r| :: Rank(r[i].priority) >= Rank(r[j].priority)
  {
    var xs := FilterTasks(tasks, filter, now);
    var le := LeOf(Order("priority", collate));
    FilterMembers(tasks, Keep(filter, now));
    forall a, b, c | a in xs && b in xs && c in xs
      ensures le(a, b) || le(b, a)
      ensures le(a, b) && le(b, c) ==> le(a, c)
    {
      OrderLe("priority", collate, a, b);
      OrderLe("priority", collate, b, a);
      OrderLe("priority", collate, b, c);
      OrderLe("priority", collate, a, c);
    }
    SortWithSorted(xs, Order("priority", collate));
    var r := Visible(tasks, filter, "priority", now, collate);
    forall i, j | 0 <= i < j < |r| ensures Rank(r[i].priority) >= Rank(r[j].priority) {
      assert r[i] in multiset(xs) && r[j] in multiset(xs);
      OrderLe("priority", collate, r[i], r[j]);
    }
  }

  /** Sorting by title orders the tasks by the collation. */
  lemma {:induction false} TitleSort(tasks: seq<Task>, filter: string, now: Date, collate: (string, string) -> int)
    requires Text.IsCollation(collate)
    ensures var r := Visible(tasks, filter, "title", now, collate);
      forall i, j | 0 <= i < j < |r| :: collate(r[i].title, r[j].title) <= 0
  {
    var xs := FilterTasks(tasks, filter, now);
    var le := LeOf(Order("title", collate));
    forall a, b, c | a in xs && b in xs && c in xs
      ensures le(a, b) || le(b, a)
      ensures le(a, b) && le(b, c) ==> le(a, c)
    {
      OrderLe("title", collate, a, b);
      OrderLe("title", collate, b, a);
      OrderLe("title", collate, b, c);
      OrderLe("title", collate, a, c);
    }
    SortWithSorted(xs, Order("title", collate));
    var r := Visible(tasks, filter, "title", now, collate);
    forall i, j | 0 <= i < j < |r| ensures collate(r[i].title, r[j].title) <= 0 {
      OrderLe("title", collate, r[i], r[j]);
    }
  }

  /** An unknown sort key leaves the filtered order unchanged. */
  lemma {:induction false} UnknownSortKeepsOrder(tasks: seq<Task>, filter: string, sortBy: string, now: Date, collate: (string, string) -> int)
    requires sortBy !in {"priority", "dueDate", "title"}
    ensures Visible(tasks, filter, sortBy, now, collate) == FilterTasks(tasks, filter, now)
  {
    SortWithKeepsOrder(FilterTasks(tasks, filter, now), Order(sortBy, collate));
  }
}
