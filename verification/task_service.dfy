/**
 * `taskService`: translation between the store's `task_c` records and the Task view record,
 * the payloads `create`, `update` and `complete` send, and the error policy of each call.
 */
module TaskService {
  import opened Wrappers
  import opened Dates
  import opened Records
  import opened Backend
  import Text

  /** A `task_c` record as the store returns it. */
  datatype TaskRecord = TaskRecord(
    Id: nat, title_c: Option<string>, description_c: Option<string>, due_date_c: Date,
    priority_c: Option<string>, completed_c: Option<bool>, completed_at_c: Option<Date>,
    farm_id_c: Option<Lookup>, crop_id_c: Option<Lookup>)

  /** What a caller hands to `create`/`update`. `completed` is `None` when the object has no own
      `completed` property; `cropId` is `None` for `null`. */
  datatype TaskData = TaskData(
    title: string, description: string, dueDate: Date, priority: string,
    farmId: string, cropId: Option<string>, completed: Option<bool>)

  /** The record sent to the store. An outer `None` is a property left out of the object;
      a `None` number is `NaN` (what `parseInt` gives for text without leading digits). */
  datatype TaskWrite = TaskWrite(
    Id: Option<nat>, title_c: string, description_c: string, due_date_c: Date,
    priority_c: string, completed_c: Option<bool>, completed_at_c: Option<Option<Date>>,
    farm_id_c: Option<nat>, crop_id_c: Option<Option<nat>>)

  /** The mapping every read applies (`getAll`, `getById`, `getUpcoming`, and the record
      `create`/`update` return). */
  function Decode(r: TaskRecord): (t: Task)
    ensures t.Id == r.Id && t.dueDate == r.due_date_c && t.completedAt == r.completed_at_c
    ensures t.title == (if r.title_c.Some? then r.title_c.value else "")
    ensures t.description == (if r.description_c.Some? then r.description_c.value else "")
    ensures t.priority == "medium" <== r.priority_c.None? || r.priority_c == Some("")
    ensures r.priority_c.Some? && r.priority_c.value != "" ==> t.priority == r.priority_c.value
    ensures t.completed <==> r.completed_c == Some(true)
    ensures r.farm_id_c.Some? && r.farm_id_c.value.Id.Some? ==> t.farmId == Text.IdText(r.farm_id_c.value.Id.value)
    ensures !(r.farm_id_c.Some? && r.farm_id_c.value.Id.Some?) ==> t.farmId == ""
    ensures r.farm_id_c.Some? && r.farm_id_c.value.Name.Some? && r.farm_id_c.value.Name.value != "" ==> t.farmName == r.farm_id_c.value.Name.value
    ensures !(r.farm_id_c.Some? && r.farm_id_c.value.Name.Some? && r.farm_id_c.value.Name.value != "") ==> t.farmName == "Unknown Farm"
    ensures r.crop_id_c.Some? && r.crop_id_c.value.Id.Some? ==> t.cropId == Some(Text.IdText(r.crop_id_c.value.Id.value))
    ensures !(r.crop_id_c.Some? && r.crop_id_c.value.Id.Some?) ==> t.cropId.None?
    ensures r.crop_id_c.Some? && r.crop_id_c.value.Name.Some? && r.crop_id_c.value.Name.value != "" ==> t.cropName == Some(r.crop_id_c.value.Name.value)
    ensures !(r.crop_id_c.Some? && r.crop_id_c.value.Name.Some? && r.crop_id_c.value.Name.value != "") ==> t.cropName.None?
  {
    Task(r.Id, Or(r.title_c, ""), Or(r.description_c, ""), r.due_date_c, Or(r.priority_c, "medium"),
         OrFalse(r.completed_c), r.completed_at_c, IdTextOr(r.farm_id_c), NameOr(r.farm_id_c, "Unknown Farm"),
         IdTextOrNull(r.crop_id_c), NameOrNull(r.crop_id_c))
  }

  /** `if (taskData.cropId)`: a crop link is sent only for a non-empty crop Id. */
  predicate HasCrop(d: TaskData) {
    d.cropId.Some? && d.cropId.value != ""
  }

  /** The record `create` sends. */
  function CreateRequest(d: TaskData): (w: TaskWrite)
    ensures w.Id.None?
    ensures w.completed_c == Some(false) && w.completed_at_c == Some(None)
    ensures w.crop_id_c.Some? <==> HasCrop(d)
    ensures w.priority_c != ""
    ensures w.farm_id_c == Text.ParseInt(d.farmId)
  {
    TaskWrite(None, d.title, d.description, d.dueDate, Or(Some(d.priority), "medium"),
              Some(false), Some(None), Text.ParseInt(d.farmId),
              if HasCrop(d) then Some(Text.ParseInt(d.cropId.value)) else None)
  }

  /** The record `update(id, d)` sends; `now` is the moment of the call. */
  function UpdateRequest(id: nat, d: TaskData, now: Date): (w: TaskWrite)
    ensures w.Id == Some(id)
    ensures w.title_c == d.title && w.description_c == d.description && w.due_date_c == d.dueDate
    ensures w.priority_c == (if d.priority == "" then "medium" else d.priority)
    ensures w.farm_id_c == Text.ParseInt(d.farmId)
    ensures w.crop_id_c.Some? <==> HasCrop(d)
    ensures HasCrop(d) ==> w.crop_id_c == Some(Text.ParseInt(d.cropId.value))
    ensures w.completed_c == d.completed
    ensures w.completed_at_c.Some? <==> d.completed.Some?
    ensures d.completed.Some? ==> (w.completed_at_c.value.Some? <==> d.completed.value)
    ensures d.completed == Some(true) ==> w.completed_at_c == Some(Some(now))
  {
    TaskWrite(Some(id), d.title, d.description, d.dueDate, Or(Some(d.priority), "medium"),
              d.completed,
              if d.completed.Some? then Some(if d.completed.value then Some(now) else None) else None,
              Text.ParseInt(d.farmId),
              if HasCrop(d) then Some(Text.ParseInt(d.cropId.value)) else None)
  }

  /** An edit writes what a creation writes, under the task's `Id`, and with the completion
      fields only when the data carries its own `completed`. */
  lemma UpdateIsCreatePlusId(id: nat, d: TaskData, now: Date)
    ensures var u := UpdateRequest(id, d, now);
      u == CreateRequest(d).(Id := Some(id), completed_c := u.completed_c, completed_at_c := u.completed_at_c)
  {
  }

  /** `{...task}` passed back as update data: the view record's own properties, `completed` included. */
  function DataOf(t: Task): TaskData {
    TaskData(t.title, t.description, t.dueDate, t.priority, t.farmId, t.cropId, Some(t.completed))
  }

  /** `complete(id)`: read the task, then update it with `completed` negated. The result is the
      record sent, or the failure of the read. */
  function CompleteRequest(id: nat, current: Result<Task, Failure>, now: Date): (r: Result<TaskWrite, Failure>)
    ensures current.Err? ==> r == Err(current.error)
    ensures current.Ok? ==> r.Ok? && r.value.Id == Some(id)
    ensures current.Ok? ==> r.value.completed_c == Some(!current.value.completed)
    ensures current.Ok? ==> r.value.completed_at_c == Some(if current.value.completed then None else Some(now))
    ensures current.Ok? ==> var t := current.value;
      && r.value.title_c == t.title && r.value.description_c == t.description && r.value.due_date_c == t.dueDate
      && r.value.priority_c == (if t.priority == "" then "medium" else t.priority)
      && r.value.farm_id_c == Text.ParseInt(t.farmId)
      && r.value.crop_id_c == (if t.cropId.Some? && t.cropId.value != "" then Some(Text.ParseInt(t.cropId.value)) else None)
  {
    match current
    case Err(e) => Err(e)
    case Ok(t) => Ok(UpdateRequest(id, DataOf(t).(completed := Some(!t.completed)), now))
  }

  /** `getAll` / `getUpcoming`: every fetched record decoded, in order; `[]` when the read fails. */
  function GetAll(resp: Fetch<TaskRecord>): (r: seq<Task>)
    ensures resp.Fetched? && resp.success && resp.data.Some? ==>
      |r| == |resp.data.value| && forall i :: 0 <= i < |r| ==> r[i] == Decode(resp.data.value[i])
    ensures !(resp.Fetched? && resp.success && resp.data.Some?) ==> r == []
  {
    ReadAll(resp, Decode)
  }

  /** `getById(id)`: the decoded record; "Task with ID <id> not found" when no record comes back. */
  function GetById(resp: Single<TaskRecord>, id: int): (r: Result<Task, Failure>)
    ensures resp.Single? && resp.data.Some? ==> r == Ok(Decode(resp.data.value))
    ensures resp.Single? && resp.data.None? ==> r == Err(NotFound("Task", id))
    ensures resp.SingleThrew? ==> r == Err(Rejected(resp.message))
  {
    ReadOne(resp, "Task", id, Decode)
  }

  /** `create(d)`, given the store's answer: the written record decoded, the store's message on a
      refusal, "Failed to create task" when no record comes back. */
  function Create(resp: Mutation<TaskRecord>): (r: Result<Task, Failure>)
    ensures r.Ok? <==> resp.Mutation? && resp.success && FirstData(resp.results).Some?
    ensures r.Ok? ==> r.value == Decode(FirstData(resp.results).value)
    ensures !(resp.Mutation? && resp.success) ==> r == Err(Rejected(resp.message))
    ensures resp.Mutation? && resp.success && FirstData(resp.results).None? ==>
      r == Err(NothingReturned("Failed to create task"))
  {
    ReadWritten(resp, Decode, "Failed to create task")
  }

  /** `update(id, d)`, given the store's answer: as `create`, with "Failed to update task". */
  function Update(resp: Mutation<TaskRecord>): (r: Result<Task, Failure>)
    ensures r.Ok? <==> resp.Mutation? && resp.success && FirstData(resp.results).Some?
    ensures r.Ok? ==> r.value == Decode(FirstData(resp.results).value)
    ensures !(resp.Mutation? && resp.success) ==> r == Err(Rejected(resp.message))
    ensures resp.Mutation? && resp.success && FirstData(resp.results).None? ==>
      r == Err(NothingReturned("Failed to update task"))
  {
    ReadWritten(resp, Decode, "Failed to update task")
  }

  /** `delete(id)`, given the store's answer: whether the first result reports success. */
  function Delete(resp: Mutation<TaskRecord>): (r: Result<bool, Failure>)
    ensures resp.Mutation? && resp.success ==>
      r == Ok(resp.results.Some? && |resp.results.value| > 0 && resp.results.value[0].success == Some(true))
    ensures !(resp.Mutation? && resp.success) ==> r == Err(Rejected(resp.message))
  {
    ReadDeleted(resp)
  }

  /** What `getUpcoming(limit)` asks the store for at time `now`: open tasks due now or later,
      earliest due first, at most `limit` of them. */
  predicate AnswersUpcoming(answer: seq<TaskRecord>, now: Date, limit: nat) {
    && |answer| <= limit
    && (forall i :: 0 <= i < |answer| ==> answer[i].completed_c == Some(false) && NotAfter(now, answer[i].due_date_c))
    && (forall i, j :: 0 <= i < j < |answer| ==> NotAfter(answer[i].due_date_c, answer[j].due_date_c))
  }

  // ---- properties ----

  /** The store's answer to a write: the sent fields under the record's Id, and the lookups it
      resolves (a reference to a record it does not know comes back without an Id). */
  function Stored(w: TaskWrite, id: nat, farm: Lookup, crop: Lookup): TaskRecord {
    TaskRecord(id, Some(w.title_c), Some(w.description_c), w.due_date_c, Some(w.priority_c),
               w.completed_c, if w.completed_at_c.Some? then w.completed_at_c.value else None,
               if w.farm_id_c.Some? then Some(farm.(Id := w.farm_id_c)) else None,
               if w.crop_id_c.Some? && w.crop_id_c.value.Some? then Some(crop.(Id := w.crop_id_c.value)) else None)
  }

  /** A created task reads back as what was entered: the same text and dates, the default
      priority for an empty one, not completed, and the same farm and crop Ids whenever these are
      Id texts. */
  lemma {:induction false} CreateRoundTrip(d: TaskData, id: nat, farm: Lookup, crop: Lookup, farmId: nat, cropId: nat)
    requires d.farmId == Text.IdText(farmId)
    requires d.cropId.None? || d.cropId == Some("") || d.cropId == Some(Text.IdText(cropId))
    ensures var t := Decode(Stored(CreateRequest(d), id, farm, crop));
      && t.Id == id && t.title == d.title && t.description == d.description && t.dueDate == d.dueDate
      && t.priority == (if d.priority == "" then "medium" else d.priority)
      && !t.completed && t.completedAt.None?
      && t.farmId == d.farmId
      && t.cropId == (if HasCrop(d) then d.cropId else None)
  {
    Text.IdTextRoundTrip(farmId);
    if HasCrop(d) {
      Text.IdTextRoundTrip(cropId);
    }
  }

  /** The farm and crop a task shows are the ones the store resolves its Ids to: Id texts, a
      non-empty priority, and the names `farm` and `crop` carry. Every task read back from a
      store that resolves its links to `farm` and `crop` is such a task. */
  ghost predicate ResolvedBy(t: Task, farm: Lookup, crop: Lookup) {
    && t.priority != ""
    && (exists farmId: nat :: t.farmId == Text.IdText(farmId))
    && (t.cropId.None? || exists cropId: nat :: t.cropId == Some(Text.IdText(cropId)))
    && t.farmName == NameOr(Some(farm), "Unknown Farm")
    && t.cropName == (if t.cropId.Some? then NameOrNull(Some(crop)) else None)
  }

  /** `complete` writes the task back unchanged except for the flag: read back, the completed
      task is the current task with `completed` negated, stamped with `now` when it becomes
      completed and without a completion time when it is reopened. */
  lemma CompleteRoundTrip(t: Task, now: Date, farm: Lookup, crop: Lookup)
    requires ResolvedBy(t, farm, crop)
    ensures Decode(Stored(CompleteRequest(t.Id, Ok(t), now).value, t.Id, farm, crop))
      == t.(completed := !t.completed, completedAt := if t.completed then None else Some(now))
  {
    var farmId: nat :| t.farmId == Text.IdText(farmId);
    Text.IdTextRoundTrip(farmId);
    if t.cropId.Some? {
      var cropId: nat :| t.cropId == Some(Text.IdText(cropId));
      Text.IdTextRoundTrip(cropId);
    }
  }

  /** Completing a task twice restores it, except that a task that was completed carries the
      time of the second call as its completion time. */
  lemma CompleteTwice(t: Task, now: Date, later: Date, farm: Lookup, crop: Lookup)
    requires ResolvedBy(t, farm, crop)
    ensures var once := Decode(Stored(CompleteRequest(t.Id, Ok(t), now).value, t.Id, farm, crop));
      Decode(Stored(CompleteRequest(once.Id, Ok(once), later).value, once.Id, farm, crop))
        == t.(completedAt := if t.completed then Some(later) else None)
  {
    CompleteRoundTrip(t, now, farm, crop);
    var once := t.(completed := !t.completed, completedAt := if t.completed then None else Some(now));
    CompleteRoundTrip(once, later, farm, crop);
  }

  /** Every task read back from a store that resolves its links to `farm` and `crop` (with a
      non-empty farm Id) is a task `complete` can round-trip. */
  lemma DecodedIsResolved(r: TaskRecord, farm: Lookup, crop: Lookup)
    requires r.farm_id_c == Some(farm) && farm.Id.Some?
    requires r.crop_id_c.None? || (r.crop_id_c == Some(crop) && crop.Id.Some?)
    ensures ResolvedBy(Decode(r), farm, crop)
  {
  }

  /** Every task `getUpcoming` returns is open and due at or after `now`, and there are at most
      `limit` of them, provided the store answers the query it was asked. */
  lemma UpcomingAreOpen(resp: Fetch<TaskRecord>, now: Date, limit: nat)
    requires resp.Fetched? && resp.data.Some? ==> AnswersUpcoming(resp.data.value, now, limit)
    ensures var ts := GetAll(resp);
      |ts| <= limit && forall i :: 0 <= i < |ts| ==> !ts[i].completed && NotAfter(now, ts[i].dueDate)
  {
  }
}
