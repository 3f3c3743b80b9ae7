/**
 * The task form: its fields (as text), the effect that restricts the crop choice to the selected
 * farm's crops, `validateForm`, `handleChange`, the edit-mode initialisation and the `taskData`
 * payload. `parse` stands for `new Date(text)` on the due-date text and `format` for the
 * `yyyy-MM-dd` rendering of a date.
 */
module TaskForm {
  import opened Wrappers
  import opened Dates
  import opened Records
  import opened Forms
  import opened Lists
  import Text
  import TaskService

  datatype Field = FarmId | CropId | Title | Description | DueDate | Priority

  datatype FormData = FormData(
    farmId: string, cropId: string, title: string, description: string, dueDate: string, priority: string)

  const Blank: FormData := FormData("", "", "", "", "", "medium")

  function Get(d: FormData, f: Field): string {
    match f
    case FarmId => d.farmId
    case CropId => d.cropId
    case Title => d.title
    case Description => d.description
    case DueDate => d.dueDate
    case Priority => d.priority
  }

  /** `{ ...prev, [field]: value }`. */
  function Set(d: FormData, f: Field, v: string): (r: FormData)
    ensures Get(r, f) == v
    ensures forall g :: g != f ==> Get(r, g) == Get(d, g)
  {
    match f
    case FarmId => d.(farmId := v)
    case CropId => d.(cropId := v)
    case Title => d.(title := v)
    case Description => d.(description := v)
    case DueDate => d.(dueDate := v)
    case Priority => d.(priority := v)
  }

  // ---- the crop choice ----

  /** The callback `crop => crop.farmId === farmId`. */
  function OfFarm(farmId: string): Crop -> bool {
    (c: Crop) => c.farmId == farmId
  }

  /** The crops offered once farm `farmId` is selected. */
  function FarmCrops(crops: seq<Crop>, farmId: string): (r: seq<Crop>)
    ensures |r| <= |crops|
  {
    Filter(crops, OfFarm(farmId))
  }

  /** The crop options are exactly the crops of the selected farm, in their order, each as often as
      it occurs. */
  lemma FarmCropsMembers(crops: seq<Crop>, farmId: string)
    ensures SubseqOf(FarmCrops(crops, farmId), crops)
    ensures forall c :: c in FarmCrops(crops, farmId) <==> c in crops && c.farmId == farmId
    ensures |FarmCrops(crops, farmId)| == CountWhere(crops, OfFarm(farmId))
  {
    FilterCount(crops, OfFarm(farmId));
    FilterIsSubseq(crops, OfFarm(farmId));
    FilterMembers(crops, OfFarm(farmId));
  }

  /** Whether one of `options` is the crop whose `Id`, as the select's text, is `cropId`. */
  predicate Offers(options: seq<Crop>, cropId: string) {
    exists c :: c in options && Text.IdText(c.Id) == cropId
  }

  /** What the restriction effect leaves: the offered crops and the form. */
  datatype Restricted = Restricted(options: seq<Crop>, data: FormData)

  /** The effect run when the selected farm or the crop list changes: with a farm selected, its
      crops are offered and a selected crop that is not one of them is dropped; with none, no
      crop is offered and the crop choice is emptied. */
  function Restrict(d: FormData, crops: seq<Crop>): (r: Restricted)
    ensures r.data == d.(cropId := r.data.cropId)
    ensures d.farmId == "" ==> r.options == [] && r.data.cropId == ""
    ensures d.farmId != "" ==> r.options == FarmCrops(crops, d.farmId)
  {
    if d.farmId != "" then
      var options := FarmCrops(crops, d.farmId);
      Restricted(options, if d.cropId != "" && !Offers(options, d.cropId) then d.(cropId := "") else d)
    else
      Restricted([], d.(cropId := ""))
  }

  /** A crop choice survives the effect exactly when a farm is selected and the choice is empty
      or one of that farm's crops; what survives is always empty or a crop of the selected farm. */
  lemma RestrictKeepsOnlyFarmCrops(d: FormData, crops: seq<Crop>)
    ensures var r := Restrict(d, crops);
      r.data.cropId == d.cropId <==>
        d.cropId == "" || (d.farmId != "" && exists c :: c in crops && c.farmId == d.farmId && Text.IdText(c.Id) == d.cropId)
    ensures var r := Restrict(d, crops);
      r.data.cropId == "" || exists c :: c in crops && c.farmId == d.farmId && Text.IdText(c.Id) == r.data.cropId
  {
    FarmCropsMembers(crops, d.farmId);
  }

  /** Running the effect a second time changes nothing. */
  lemma RestrictIdempotent(d: FormData, crops: seq<Crop>)
    ensures Restrict(Restrict(d, crops).data, crops) == Restrict(d, crops)
  {
  }

  /** `crop.Id === formData.cropId` as the code writes it: the store's `Id` is a number and the
      select's value is text, and JavaScript's strict equality between a number and a string is
      always false. */
  predicate SameIdAsWritten(id: nat, cropId: string) {
    false
  }

  /** The effect as written, with the comparison above. */
  function RestrictAsWritten(d: FormData, crops: seq<Crop>): Restricted {
    if d.farmId != "" then
      var options := FarmCrops(crops, d.farmId);
      Restricted(options,
        if d.cropId != "" && !(exists c :: c in options && SameIdAsWritten(c.Id, d.cropId)) then d.(cropId := "") else d)
    else
      Restricted([], d.(cropId := ""))
  }

  /** As written the effect drops every crop choice, a crop of the selected farm included: with
      farm "1" selected and crop 7 of farm "1" chosen, the choice is emptied, where `Restrict`
      keeps it. */
  lemma RestrictAsWrittenDropsFarmCrop(d: FormData, c: Crop, crops: seq<Crop>)
    requires d.farmId == "1" && d.cropId == "7"
    requires c == Crop(7, "Corn", "Sweet", Date(2024, 3, 1, 0), Date(2024, 7, 1, 0), 10, "planted", "1", "North")
    requires crops == [c]
    ensures RestrictAsWritten(d, crops).data.cropId == ""
    ensures Restrict(d, crops).data.cropId == "7"
  {
    assert Text.IdText(7) == "7";
    FarmCropsMembers(crops, "1");
    assert c in FarmCrops(crops, "1");
  }

  /** In general the code as written empties every crop choice it sees. */
  lemma RestrictAsWrittenAlwaysEmpties(d: FormData, crops: seq<Crop>)
    ensures RestrictAsWritten(d, crops).data.cropId == ""
    ensures RestrictAsWritten(d, crops).options == Restrict(d, crops).options
  {
  }

  // ---- validation ----

  predicate Fails(d: FormData, f: Field) {
    match f
    case FarmId => d.farmId == ""
    case Title => Text.Trim(d.title) == ""
    case DueDate => d.dueDate == ""
    case _ => false
  }

  function Message(f: Field): string {
    match f
    case FarmId => "Farm selection is required"
    case Title => "Task title is required"
    case DueDate => "Due date is required"
    case _ => ""
  }

  /** The fields `validateForm` checks. */
  const Checked: set<Field> := {FarmId, Title, DueDate}

  function FailsOf(d: FormData): Field -> bool {
    f => Fails(d, f)
  }

  function MessageOf(): Field -> string {
    f => Message(f)
  }

  /** The errors `validateForm` reports. */
  function Errors(d: FormData): (e: map<Field, string>)
    ensures forall f :: f in e <==> Fails(d, f)
    ensures forall f :: f in e ==> e[f] == Message(f)
  {
    map f | f in Checked && FailsOf(d)(f) :: MessageOf()(f)
  }

  /** What the form accepts: a farm, a title that is not blank, and a due date. */
  predicate Acceptable(d: FormData) {
    d.farmId != "" && !Text.Blank(d.title) && d.dueDate != ""
  }

  /** `validateForm`: fills `newErrors` check by check. */
  method Validate(d: FormData) returns (errors: map<Field, string>)
    ensures errors == Errors(d)
  {
    ghost var fails, message := FailsOf(d), MessageOf();
    errors := map[];
    CheckStep(errors, fails, message, {}, FarmId, d.farmId == "", "Farm selection is required", {FarmId});
    errors := Check(errors, d.farmId == "", FarmId, "Farm selection is required");
    CheckStep(errors, fails, message, {FarmId}, Title, Text.Trim(d.title) == "", "Task title is required", {FarmId, Title});
    errors := Check(errors, Text.Trim(d.title) == "", Title, "Task title is required");
    CheckStep(errors, fails, message, {FarmId, Title}, DueDate, d.dueDate == "", "Due date is required", {FarmId, Title, DueDate});
    errors := Check(errors, d.dueDate == "", DueDate, "Due date is required");
    ReportedAll(errors, d);
  }

  /** Once every checked field is accounted for, the map is the form's errors. */
  lemma ReportedAll(e: map<Field, string>, d: FormData)
    requires Reports(e, FailsOf(d), MessageOf(), {FarmId, Title, DueDate})
    ensures e == Errors(d)
  {
    forall g | g !in Checked ensures !FailsOf(d)(g) {
      assert g == CropId || g == Description || g == Priority;
    }
    ReportsDone(e, FailsOf(d), MessageOf(), Checked);
  }

  /** The form passes (`Object.keys(newErrors).length === 0`) exactly when it is acceptable. */
  lemma PassesIffAcceptable(d: FormData)
    ensures |Errors(d)| == 0 <==> Acceptable(d)
  {
    var e := Errors(d);
    Text.TrimEmptyIffBlank(d.title);
    forall f | Fails(d, f) ensures |e| != 0 {
      assert f in e;
    }
    if Acceptable(d) {
      forall f ensures !Fails(d, f) {
      }
      assert e.Keys == {};
    } else {
      if d.farmId == "" { assert Fails(d, FarmId); }
      else if Text.Blank(d.title) { assert Fails(d, Title); }
      else { assert Fails(d, DueDate); }
    }
  }

  // ---- editing and submitting ----

  /** The form as `useEffect` fills it for editing task `t`. */
  function FromTask(t: Task, format: Date -> string): (d: FormData)
    ensures d.farmId == t.farmId && d.title == t.title && d.description == t.description
    ensures d.cropId == (if t.cropId.Some? then t.cropId.value else "")
    ensures d.dueDate == format(t.dueDate)
    ensures d.priority != "" && (t.priority != "" ==> d.priority == t.priority)
  {
    FormData(t.farmId, if t.cropId.Some? then t.cropId.value else "", t.title, t.description,
             format(t.dueDate), if t.priority == "" then "medium" else t.priority)
  }

  /** The `taskData` payload (without the `Id`): the due date parsed, an empty crop sent as
      `null`, and the edited task's `completed` flag (false for a new task). */
  function Payload(d: FormData, editing: Option<Task>, parse: string -> Date): (p: TaskService.TaskData)
    ensures p.cropId.None? <==> d.cropId == ""
    ensures p.cropId.Some? ==> p.cropId.value == d.cropId
    ensures p.completed == Some(editing.Some? && editing.value.completed)
  {
    TaskService.TaskData(d.title, d.description, parse(d.dueDate), d.priority, d.farmId,
                         if d.cropId == "" then None else Some(d.cropId),
                         Some(editing.Some? && editing.value.completed))
  }

  /** The form once both effects have run at mount. The restriction effect's first run reads
      the initial form, which has no farm, so it offers nothing and queues `cropId: ""`; that
      update is applied after the edit initialisation, so an edit form opens without its crop. */
  function Opened(editing: Option<Task>, format: Date -> string, crops: seq<Crop>): (r: Restricted)
    ensures r.options == [] && r.data.cropId == ""
    ensures editing.None? ==> r.data == Blank
    ensures editing.Some? ==> r.data == FromTask(editing.value, format).(cropId := "")
  {
    var first := Restrict(Blank, crops);
    var init := if editing.Some? then FromTask(editing.value, format) else Blank;
    Restricted(first.options, init.(cropId := first.data.cropId))
  }

  /** An edit form loses the task's crop at mount. When the task has a farm, the farm changed
      from "", so the restriction runs again: it offers the farm's crops and leaves the (now
      empty) crop choice as it is. */
  lemma EditOpensWithoutCrop(t: Task, format: Date -> string, crops: seq<Crop>)
    ensures t.cropId.Some? && t.cropId.value != "" ==>
      Opened(Some(t), format, crops).data.cropId != FromTask(t, format).cropId
    ensures var d := Opened(Some(t), format, crops).data;
      t.farmId != "" ==> Restrict(d, crops) == Restricted(FarmCrops(crops, t.farmId), d)
  {
  }

  /** A task opened for editing and submitted untouched is sent back with the same title,
      description, due date (when the date rendering reads back as the date), priority, farm and
      completion flag, and with no crop: the crop cleared at mount is sent as `null`, so the
      edit's write carries no crop link. */
  lemma EditRoundTrip(t: Task, format: Date -> string, parse: string -> Date, crops: seq<Crop>, now: Date)
    requires parse(format(t.dueDate)) == t.dueDate
    requires t.priority != ""
    ensures Payload(Opened(Some(t), format, crops).data, Some(t), parse) ==
      TaskService.TaskData(t.title, t.description, t.dueDate, t.priority, t.farmId, None, Some(t.completed))
    ensures TaskService.UpdateRequest(t.Id, Payload(Opened(Some(t), format, crops).data, Some(t), parse), now).crop_id_c.None?
  {
  }

  /** The form always sends `completed`, so saving an edit of a completed task stamps its
      completion time afresh with the time of the edit, and saving an open task clears it. */
  lemma EditRestampsCompletion(t: Task, format: Date -> string, parse: string -> Date, crops: seq<Crop>, now: Date)
    ensures var w := TaskService.UpdateRequest(t.Id, Payload(Opened(Some(t), format, crops).data, Some(t), parse), now);
      w.completed_at_c == Some(if t.completed then Some(now) else None)
  {
  }

  /** What `handleSubmit` hands to the page: the payload and, when editing, the task's `Id`. */
  datatype Submission = Submission(data: TaskService.TaskData, Id: Option<nat>)

  class Form {
    var data: FormData
    var errors: map<Field, string>
    /** `filteredCrops`: the crops the crop select offers. */
    var options: seq<Crop>
    /** The task being edited, `None` when adding. */
    const editing: Option<Task>

    /** The form as mounted, once its two effects have run (see `Opened`). */
    constructor(editing: Option<Task>, format: Date -> string, crops: seq<Crop>)
      ensures this.editing == editing
      ensures data == Opened(editing, format, crops).data && options == Opened(editing, format, crops).options
      ensures errors == map[]
    {
      this.editing := editing;
      var start := Opened(editing, format, crops);
      data := start.data;
      options := start.options;
      errors := map[];
    }

    /** `handleChange(field)` with the typed value. */
    method Change(f: Field, v: string)
      modifies this
      ensures data == Set(old(data), f, v)
      ensures errors == ClearError(old(errors), f)
      ensures options == old(options)
    {
      data := Set(data, f, v);
      errors := ClearError(errors, f);
    }

    /** The crop-restriction effect, run again after the selected farm or the crop list changed. */
    method RestrictCrops(crops: seq<Crop>)
      modifies this
      ensures options == Restrict(old(data), crops).options
      ensures data == Restrict(old(data), crops).data
      ensures errors == old(errors)
    {
      if data.farmId != "" {
        options := FarmCrops(crops, data.farmId);
        if data.cropId != "" && !Offers(options, data.cropId) {
          data := data.(cropId := "");
        }
      } else {
        options := [];
        data := data.(cropId := "");
      }
    }

    /** `handleSubmit`: validates; an acceptable form yields its payload, with the `Id` only when
        editing. */
    method Submit(parse: string -> Date) returns (sent: Option<Submission>)
      modifies this
      ensures data == old(data) && options == old(options) && errors == Errors(data)
      ensures sent.Some? <==> Acceptable(data)
      ensures sent.Some? ==> sent.value == Submission(
        Payload(data, editing, parse), if editing.Some? then Some(editing.value.Id) else None)
    {
      errors := Validate(data);
      PassesIffAcceptable(data);
      if |errors| != 0 {
        return None;
      }
      sent := Some(Submission(Payload(data, editing, parse), if editing.Some? then Some(editing.value.Id) else None));
    }
  }
}
