/**
 * The Tasks page: the loaded task list, the search box over it, and the list updates after a
 * create, an edit, a completion toggle or a delete.
 */
module TasksPage {
  import opened Wrappers
  import opened Records
  import opened Lists
  import opened Backend
  import opened PageState
  import Text

  function IdOf(t: Task): nat { t.Id }

  /** `task.cropName && task.cropName...includes(term)`: a null or empty crop name never
      matches. */
  predicate CropNameMatches(t: Task, term: string) {
    t.cropName.Some? && t.cropName.value != "" && Text.IncludesIgnoringCase(t.cropName.value, term)
  }

  /** The search callback: title, description, farm name or crop name contains the term, ignoring
      case. */
  predicate Matches(t: Task, term: string) {
    Text.IncludesIgnoringCase(t.title, term) || Text.IncludesIgnoringCase(t.description, term) ||
    Text.IncludesIgnoringCase(t.farmName, term) || CropNameMatches(t, term)
  }

  function Matching(term: string): Task -> bool {
    (t: Task) => Matches(t, term)
  }

  /** `filteredTasks`: the search runs on every term, the empty one included. */
  function Visible(tasks: seq<Task>, term: string): (r: seq<Task>)
    ensures |r| <= |tasks|
  {
    Filter(tasks, Matching(term))
  }

  /** The shown tasks are the matching ones, in their order and as often as they occur; a task without a crop is found only
      through its title, description or farm name. */
  lemma VisibleMembers(tasks: seq<Task>, term: string)
    ensures SubseqOf(Visible(tasks, term), tasks)
    ensures forall t :: t in Visible(tasks, term) <==> t in tasks && Matches(t, term)
    ensures forall t :: t in tasks && t.cropName.None? ==>
      (t in Visible(tasks, term) <==>
        Text.IncludesIgnoringCase(t.title, term) || Text.IncludesIgnoringCase(t.description, term) ||
        Text.IncludesIgnoringCase(t.farmName, term))
    ensures |Visible(tasks, term)| == CountWhere(tasks, Matching(term))
  {
    FilterCount(tasks, Matching(term));
    FilterIsSubseq(tasks, Matching(term));
    FilterMembers(tasks, Matching(term));
  }

  /** An empty search term shows every task. */
  lemma EmptySearchKeepsAll(tasks: seq<Task>)
    ensures Visible(tasks, "") == tasks
  {
    forall t | t in tasks ensures Matching("")(t) {
      Text.EmptyTermMatches(t.title);
    }
    FilterAll(tasks, Matching(""));
  }

  class Page {
    var tasks: seq<Task>
    var farms: seq<Farm>
    var crops: seq<Crop>
    var searchTerm: string

    constructor()
      ensures tasks == [] && farms == [] && crops == [] && searchTerm == ""
    {
      tasks, farms, crops, searchTerm := [], [], [], "";
    }

    /** `loadData`: the lists the task, farm and crop services answered. */
    method Load(loadedTasks: seq<Task>, loadedFarms: seq<Farm>, loadedCrops: seq<Crop>)
      modifies this
      ensures tasks == loadedTasks && farms == loadedFarms && crops == loadedCrops
      ensures searchTerm == old(searchTerm)
    {
      tasks, farms, crops := loadedTasks, loadedFarms, loadedCrops;
    }

    method Search(term: string)
      modifies this
      ensures searchTerm == term && tasks == old(tasks) && farms == old(farms) && crops == old(crops)
    {
      searchTerm := term;
    }

    /** `handleAddTask`, given what `taskService.create` answered. */
    method AddTask(created: Result<Task, Failure>)
      modifies this
      ensures created.Ok? ==> tasks == old(tasks) + [created.value]
      ensures created.Err? ==> tasks == old(tasks)
      ensures farms == old(farms) && crops == old(crops) && searchTerm == old(searchTerm)
    {
      if created.Ok? {
        tasks := tasks + [created.value];
      }
    }

    /** `handleEditTask`, given what `taskService.update` answered: the entries with the updated
        task's `Id` become it. */
    method EditTask(updated: Result<Task, Failure>)
      modifies this
      ensures updated.Ok? ==> tasks == Replaced(old(tasks), IdOf, updated.value.Id, updated.value)
      ensures updated.Err? ==> tasks == old(tasks)
      ensures farms == old(farms) && crops == old(crops) && searchTerm == old(searchTerm)
    {
      if updated.Ok? {
        tasks := Replaced(tasks, IdOf, updated.value.Id, updated.value);
      }
    }

    /** `handleCompleteTask`, given what `taskService.complete` answered: the toggled task
        replaces the entries with its `Id`. */
    method CompleteTask(toggled: Result<Task, Failure>)
      modifies this
      ensures toggled.Ok? ==> tasks == Replaced(old(tasks), IdOf, toggled.value.Id, toggled.value)
      ensures toggled.Err? ==> tasks == old(tasks)
      ensures farms == old(farms) && crops == old(crops) && searchTerm == old(searchTerm)
    {
      if toggled.Ok? {
        tasks := Replaced(tasks, IdOf, toggled.value.Id, toggled.value);
      }
    }

    /** `handleDeleteTask`: nothing happens unless the user confirms; then, once
        `taskService.delete` resolves, the entries with that `Id` are removed. */
    method DeleteTask(id: nat, confirmed: bool, deleted: Result<bool, Failure>)
      modifies this
      ensures confirmed && deleted.Ok? ==> tasks == Removed(old(tasks), IdOf, id)
      ensures !(confirmed && deleted.Ok?) ==> tasks == old(tasks)
      ensures farms == old(farms) && crops == old(crops) && searchTerm == old(searchTerm)
    {
      if confirmed && deleted.Ok? {
        tasks := Removed(tasks, IdOf, id);
      }
    }

    /** `filteredTasks` on the current state. */
    function Shown(): seq<Task>
      reads this
    {
      Visible(tasks, searchTerm)
    }
  }
}
