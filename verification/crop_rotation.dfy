/**
 * The crop rotation page: its list state (`rotations`, the selected farm and year, the view
 * mode), the handlers that change the list after the service answers, and the two views of the
 * list, the filtered rotations and the twelve month buckets of the calendar.
 */
module CropRotationPage {
  import opened Wrappers
  import opened Lists
  import opened Dates
  import opened Records
  import opened Backend
  import opened PageState

  /** `viewMode`: `"calendar"` or `"list"`. */
  datatype ViewMode = Calendar | ListView

  /** A month of the calendar: its first day and the rotations planned in it. */
  datatype MonthBucket = MonthBucket(month: Date, rotations: seq<Rotation>)

  function RotationId(r: Rotation): nat { r.Id }

  /** `r => r.farmId === selectedFarm`. */
  function OfFarm(farm: string): Rotation -> bool {
    (r: Rotation) => r.farmId == farm
  }

  /** `r => new Date(r.plannedDate).getFullYear() === selectedYear`. */
  function InYear(year: int): Rotation -> bool {
    (r: Rotation) => r.plannedDate.year == year
  }

  /** `getFilteredRotations`: the farm filter when a farm is selected (the empty string selects
      all farms), then the year filter in calendar view only. */
  function FilteredRotations(rotations: seq<Rotation>, farm: string, year: int, mode: ViewMode): (r: seq<Rotation>)
    ensures |r| <= |rotations|
  {
    var byFarm := if farm != "" then Filter(rotations, OfFarm(farm)) else rotations;
    if mode == Calendar then Filter(byFarm, InYear(year)) else byFarm
  }

  /** The first day of month `m` (0-based) of `year`, as `eachMonthOfInterval` yields it. */
  function MonthStart(year: int, m: int): Date { Date(year, m, 1, 0) }

  /** `rotation => date.getMonth() === month.getMonth() && date.getFullYear() === month.getFullYear()`. */
  function InMonth(year: int, m: int): Rotation -> bool {
    (r: Rotation) => r.plannedDate.month == m && r.plannedDate.year == year
  }

  /** `getMonthlyRotations`: January to December of `year`, each with the filtered rotations
      planned in it. */
  function MonthlyRotations(rotations: seq<Rotation>, farm: string, year: int, mode: ViewMode): (b: seq<MonthBucket>)
    ensures |b| == 12
    ensures forall m :: 0 <= m < 12 ==> b[m].month == MonthStart(year, m)
  {
    var filtered := FilteredRotations(rotations, farm, year, mode);
    seq(12, m requires 0 <= m < 12 => MonthBucket(MonthStart(year, m), Filter(filtered, InMonth(year, m))))
  }

  /** The number of rotations the calendar shows in its buckets. */
  function BucketTotal(b: seq<MonthBucket>): nat
    decreases |b|
  {
    if b == [] then 0 else BucketTotal(b[..|b| - 1]) + |b[|b| - 1].rotations|
  }

  // ---- properties of the views ----

  /** Whether a rotation is listed: it belongs to the selected farm (if any) and, in calendar
      view, is planned in the selected year. */
  function Listed(farm: string, year: int, mode: ViewMode): Rotation -> bool {
    (x: Rotation) => (farm != "" ==> x.farmId == farm) && (mode == Calendar ==> x.plannedDate.year == year)
  }

  /** A rotation is listed exactly when it is in the page's list, belongs to the selected farm
      (if any) and, in calendar view, is planned in the selected year; the list keeps the page's
      order and lists each rotation as often as it occurs. */
  lemma FilteredMembers(rotations: seq<Rotation>, farm: string, year: int, mode: ViewMode)
    ensures var r := FilteredRotations(rotations, farm, year, mode);
      && SubseqOf(r, rotations)
      && (forall x :: x in r <==>
           x in rotations && (farm != "" ==> x.farmId == farm) && (mode == Calendar ==> x.plannedDate.year == year))
      && |r| == CountWhere(rotations, Listed(farm, year, mode))
  {
    FilteredIsListed(rotations, farm, year, mode);
    FilterCount(rotations, Listed(farm, year, mode));
    var byFarm := if farm != "" then Filter(rotations, OfFarm(farm)) else rotations;
    if farm != "" {
      FilterIsSubseq(rotations, OfFarm(farm));
      FilterMembers(rotations, OfFarm(farm));
    } else {
      SubseqRefl(rotations);
    }
    if mode == Calendar {
      FilterIsSubseq(byFarm, InYear(year));
      FilterMembers(byFarm, InYear(year));
      SubseqTrans(Filter(byFarm, InYear(year)), byFarm, rotations);
    }
  }

  /** The farm filter and the year filter together are one filter by `Listed`. */
  lemma FilteredIsListed(rotations: seq<Rotation>, farm: string, year: int, mode: ViewMode)
    ensures FilteredRotations(rotations, farm, year, mode) == Filter(rotations, Listed(farm, year, mode))
  {
    if farm != "" && mode == Calendar {
      FilterBoth(rotations, OfFarm(farm), InYear(year));
      FilterCongruent(rotations, Both(OfFarm(farm), InYear(year)), Listed(farm, year, mode));
    } else if farm != "" {
      FilterCongruent(rotations, OfFarm(farm), Listed(farm, year, mode));
    } else if mode == Calendar {
      FilterCongruent(rotations, InYear(year), Listed(farm, year, mode));
    } else {
      FilterAll(rotations, Listed(farm, year, mode));
    }
  }

  /** With no farm selected, the list view shows the whole list. */
  lemma ListViewShowsAll(rotations: seq<Rotation>, year: int)
    ensures FilteredRotations(rotations, "", year, ListView) == rotations
  {
  }

  /** Each month's bucket holds, in list order, exactly the listed rotations planned in that
      month of the selected year. */
  lemma BucketMembers(rotations: seq<Rotation>, farm: string, year: int, mode: ViewMode, m: int)
    requires 0 <= m < 12
    ensures var filtered := FilteredRotations(rotations, farm, year, mode);
      var bucket := MonthlyRotations(rotations, farm, year, mode)[m].rotations;
      && SubseqOf(bucket, filtered)
      && forall x :: x in bucket <==> x in filtered && x.plannedDate.month == m && x.plannedDate.year == year
  {
    var filtered := FilteredRotations(rotations, farm, year, mode);
    FilterIsSubseq(filtered, InMonth(year, m));
    FilterMembers(filtered, InMonth(year, m));
  }

  /** A listed rotation with a valid date in the selected year is in its own month's bucket and
      in no other. */
  lemma OneBucketEach(rotations: seq<Rotation>, farm: string, year: int, mode: ViewMode, x: Rotation)
    requires x in FilteredRotations(rotations, farm, year, mode)
    requires Valid(x.plannedDate) && x.plannedDate.year == year
    ensures var b := MonthlyRotations(rotations, farm, year, mode);
      forall m :: 0 <= m < 12 ==> (x in b[m].rotations <==> m == x.plannedDate.month)
  {
    forall m | 0 <= m < 12 {
      BucketMembers(rotations, farm, year, mode, m);
    }
  }

  /** Rotations of `xs` counted over the buckets of months `0 .. n - 1` of `year`. */
  function MonthsTotal(xs: seq<Rotation>, year: int, n: nat): nat
  {
    if n == 0 then 0 else MonthsTotal(xs, year, n - 1) + |Filter(xs, InMonth(year, n - 1))|
  }

  /** One more rotation adds one to the count over the first `n` months exactly when it falls in
      one of them. */
  lemma {:induction false} MonthsTotalStep(xs: seq<Rotation>, x: Rotation, year: int, n: nat)
    requires 0 <= x.plannedDate.month
    ensures MonthsTotal(xs + [x], year, n) ==
      MonthsTotal(xs, year, n) + (if x.plannedDate.year == year && x.plannedDate.month < n then 1 else 0)
  {
    if n > 0 {
      MonthsTotalStep(xs, x, year, n - 1);
      var p := InMonth(year, n - 1);
      assert (xs + [x])[..|xs + [x]| - 1] == xs;
      assert |Filter(xs + [x], p)| == |Filter(xs, p)| + (if p(x) then 1 else 0);
    }
  }

  /** Over all twelve months, every rotation of `year` with a valid date is counted once. */
  lemma {:induction false} MonthsTotalIsYear(xs: seq<Rotation>, year: int)
    requires forall x :: x in xs ==> Valid(x.plannedDate)
    ensures MonthsTotal(xs, year, 12) == |Filter(xs, InYear(year))|
    decreases |xs|
  {
    if xs == [] {
      MonthsTotalZero(year, 12);
    } else {
      var init, last := xs[..|xs| - 1], xs[|xs| - 1];
      assert xs == init + [last];
      assert last in xs;
      assert forall x :: x in init ==> x in xs;
      MonthsTotalIsYear(init, year);
      MonthsTotalStep(init, last, year, 12);
      FilterAppend(init, [last], InYear(year));
    }
  }

  /** No rotations, nothing counted. */
  lemma {:induction false} MonthsTotalZero(year: int, n: nat)
    ensures MonthsTotal([], year, n) == 0
  {
    if n > 0 {
      MonthsTotalZero(year, n - 1);
    }
  }

  /** The first `n` buckets hold as many rotations as the count over the first `n` months. */
  lemma {:induction false} BucketTotalPrefix(rotations: seq<Rotation>, farm: string, year: int, mode: ViewMode, n: nat)
    requires n <= 12
    ensures BucketTotal(MonthlyRotations(rotations, farm, year, mode)[..n]) ==
      MonthsTotal(FilteredRotations(rotations, farm, year, mode), year, n)
  {
    if n > 0 {
      var b := MonthlyRotations(rotations, farm, year, mode);
      BucketTotalPrefix(rotations, farm, year, mode, n - 1);
      assert b[..n][..n - 1] == b[..n - 1];
    }
  }

  /** In calendar view the buckets together hold every listed rotation exactly once (all dates
      valid): none is dropped and none is counted twice. */
  lemma CalendarCountsEachOnce(rotations: seq<Rotation>, farm: string, year: int)
    requires forall x :: x in rotations ==> Valid(x.plannedDate)
    ensures BucketTotal(MonthlyRotations(rotations, farm, year, Calendar)) ==
      |FilteredRotations(rotations, farm, year, Calendar)|
  {
    var b := MonthlyRotations(rotations, farm, year, Calendar);
    var filtered := FilteredRotations(rotations, farm, year, Calendar);
    FilteredMembers(rotations, farm, year, Calendar);
    BucketTotalPrefix(rotations, farm, year, Calendar, 12);
    assert b[..12] == b;
    MonthsTotalIsYear(filtered, year);
    FilterMembers(filtered, InYear(year));
    FilterAll(filtered, InYear(year));
  }

  // ---- the page state ----

  class Page {
    var rotations: seq<Rotation>
    var selectedFarm: string
    var selectedYear: int
    var viewMode: ViewMode

    /** The initial state: nothing loaded, all farms, the current year, calendar view. */
    constructor(currentYear: int)
      ensures rotations == [] && selectedFarm == "" && selectedYear == currentYear && viewMode == Calendar
    {
      rotations := [];
      selectedFarm := "";
      selectedYear := currentYear;
      viewMode := Calendar;
    }

    /** `loadData`: the list `rotationService.getAll()` answered (empty when it failed). */
    method Load(loaded: seq<Rotation>)
      modifies this
      ensures rotations == loaded
      ensures selectedFarm == old(selectedFarm) && selectedYear == old(selectedYear) && viewMode == old(viewMode)
    {
      rotations := loaded;
    }

    method SelectFarm(farm: string)
      modifies this
      ensures selectedFarm == farm
      ensures rotations == old(rotations) && selectedYear == old(selectedYear) && viewMode == old(viewMode)
    {
      selectedFarm := farm;
    }

    method SelectYear(year: int)
      modifies this
      ensures selectedYear == year
      ensures rotations == old(rotations) && selectedFarm == old(selectedFarm) && viewMode == old(viewMode)
    {
      selectedYear := year;
    }

    method SelectView(mode: ViewMode)
      modifies this
      ensures viewMode == mode
      ensures rotations == old(rotations) && selectedFarm == old(selectedFarm) && selectedYear == old(selectedYear)
    {
      viewMode := mode;
    }

    /** `handleAddRotation`, given what `rotationService.create` answered: the created rotation is
        appended; on an error the list stays as it was. */
    method AddRotation(created: Result<Rotation, Failure>)
      modifies this
      ensures created.Ok? ==> rotations == old(rotations) + [created.value]
      ensures created.Err? ==> rotations == old(rotations)
      ensures selectedFarm == old(selectedFarm) && selectedYear == old(selectedYear) && viewMode == old(viewMode)
    {
      if created.Ok? {
        rotations := rotations + [created.value];
      }
    }

    /** `handleEditRotation` for the rotation being edited, given what `rotationService.update`
        answered: the entries with its `Id` become the updated rotation. */
    method EditRotation(editing: Rotation, updated: Result<Rotation, Failure>)
      modifies this
      ensures updated.Ok? ==> rotations == Replaced(old(rotations), RotationId, editing.Id, updated.value)
      ensures updated.Err? ==> rotations == old(rotations)
      ensures selectedFarm == old(selectedFarm) && selectedYear == old(selectedYear) && viewMode == old(viewMode)
    {
      if updated.Ok? {
        rotations := Replaced(rotations, RotationId, editing.Id, updated.value);
      }
    }

    /** `handleDeleteRotation`: nothing happens unless the user confirms; then, once
        `rotationService.delete` resolves (whatever it resolves to), the entries with that `Id`
        are removed. */
    method DeleteRotation(id: nat, confirmed: bool, deleted: Result<bool, Failure>)
      modifies this
      ensures confirmed && deleted.Ok? ==> rotations == Removed(old(rotations), RotationId, id)
      ensures !(confirmed && deleted.Ok?) ==> rotations == old(rotations)
      ensures selectedFarm == old(selectedFarm) && selectedYear == old(selectedYear) && viewMode == old(viewMode)
    {
      if confirmed && deleted.Ok? {
        rotations := Removed(rotations, RotationId, id);
      }
    }

    /** `getFilteredRotations()` on the current state. */
    function Filtered(): seq<Rotation>
      reads this
    {
      FilteredRotations(rotations, selectedFarm, selectedYear, viewMode)
    }

    /** `getMonthlyRotations()` on the current state. */
    function Monthly(): seq<MonthBucket>
      reads this
    {
      MonthlyRotations(rotations, selectedFarm, selectedYear, viewMode)
    }
  }
}

/**
 * The rotation form inside the crop rotation page: its fields, the required-field check, the
 * change handler and the payload handed to the page on submit.
 */
module RotationForm {
  import opened Wrappers
  import opened Dates
  import opened Records
  import opened Forms
  import RotationService

  datatype Field = FarmId | CropId | PlannedDate | PreviousCrop | Notes | Status

  /** `formData`; `plannedDate` is the text of the date input (`yyyy-MM-dd`). */
  datatype FormData = FormData(
    farmId: string, cropId: string, plannedDate: string, previousCrop: string, notes: string, status: string)

  /** The fields of a new plan. */
  const Blank := FormData("", "", "", "", "", "planned")

  function Get(d: FormData, f: Field): string {
    match f
    case FarmId => d.farmId
    case CropId => d.cropId
    case PlannedDate => d.plannedDate
    case PreviousCrop => d.previousCrop
    case Notes => d.notes
    case Status => d.status
  }

  /** `{ ...prev, [field]: value }`. */
  function Set(d: FormData, f: Field, v: string): (r: FormData)
    ensures Get(r, f) == v
    ensures forall g :: g != f ==> Get(r, g) == Get(d, g)
  {
    match f
    case FarmId => d.(farmId := v)
    case CropId => d.(cropId := v)
    case PlannedDate => d.(plannedDate := v)
    case PreviousCrop => d.(previousCrop := v)
    case Notes => d.(notes := v)
    case Status => d.(status := v)
  }

  /** The fields the form refuses to submit empty. */
  predicate Required(f: Field) {
    f == FarmId || f == CropId || f == PlannedDate
  }

  function Message(f: Field): string {
    match f
    case FarmId => "Farm selection is required"
    case CropId => "Crop selection is required"
    case PlannedDate => "Planned date is required"
    case _ => ""
  }

  /** The errors `validateForm` reports: one per required field left empty. */
  function Errors(d: FormData): (e: map<Field, string>)
    ensures forall f :: f in e <==> Required(f) && Get(d, f) == ""
    ensures forall f :: f in e ==> e[f] == Message(f) && e[f] != ""
  {
    map f | f in {FarmId, CropId, PlannedDate} && Get(d, f) == "" :: Message(f)
  }

  /** The form with all required fields filled. */
  predicate Complete(d: FormData) {
    d.farmId != "" && d.cropId != "" && d.plannedDate != ""
  }

  /** `validateForm`: fills `newErrors` field by field. */
  method Validate(d: FormData) returns (errors: map<Field, string>)
    ensures errors == Errors(d)
  {
    errors := map[];
    if d.farmId == "" {
      errors := errors[FarmId := "Farm selection is required"];
    }
    if d.cropId == "" {
      errors := errors[CropId := "Crop selection is required"];
    }
    if d.plannedDate == "" {
      errors := errors[PlannedDate := "Planned date is required"];
    }
  }

  /** The form passes (`Object.keys(newErrors).length === 0`) exactly when it is complete. */
  lemma PassesIffComplete(d: FormData)
    ensures |Errors(d)| == 0 <==> Complete(d)
  {
    var e := Errors(d);
    if d.farmId == "" { assert FarmId in e; }
    if d.cropId == "" { assert CropId in e; }
    if d.plannedDate == "" { assert PlannedDate in e; }
    if Complete(d) { assert e.Keys == {}; }
  }

  /** A new plan starts with every required field missing. */
  lemma BlankReportsAllRequired()
    ensures forall f :: f in Errors(Blank) <==> Required(f)
  {
  }

  /** Changing a field re-decides only that field's error. */
  lemma ChangeAffectsOnlyItsError(d: FormData, f: Field, v: string)
    ensures forall g :: g != f ==> (g in Errors(Set(d, f, v)) <==> g in Errors(d))
    ensures f in Errors(Set(d, f, v)) <==> Required(f) && v == ""
  {
  }

  /** What `handleSubmit` hands to the page: the fields, the parsed date, and, when editing,
      the `Id` of the rotation being edited. */
  datatype Submission = Submission(data: RotationService.RotationData, Id: Option<nat>)

  /** The form as `useEffect` fills it for editing `r`; `format` renders a date as `yyyy-MM-dd`. */
  function FromRotation(r: Rotation, format: Date -> string): (d: FormData)
    ensures d.farmId == r.farmId && d.cropId == r.cropId && d.plannedDate == format(r.plannedDate)
    ensures d.status == (if r.status == "" then "planned" else r.status)
  {
    FormData(r.farmId, r.cropId, format(r.plannedDate), r.previousCrop, r.notes,
             if r.status == "" then "planned" else r.status)
  }

  /** An edited rotation with its farm, crop and date reopens as a complete form. */
  lemma EditingStartsComplete(r: Rotation, format: Date -> string)
    requires r.farmId != "" && r.cropId != "" && format(r.plannedDate) != ""
    ensures |Errors(FromRotation(r, format))| == 0
  {
    PassesIffComplete(FromRotation(r, format));
  }

  class Form {
    var data: FormData
    var errors: map<Field, string>
    /** The rotation being edited (`rotation` when `isEdit`), `None` when adding. */
    const editing: Option<Rotation>

    constructor(editing: Option<Rotation>, format: Date -> string)
      ensures this.editing == editing
      ensures data == (if editing.Some? then FromRotation(editing.value, format) else Blank)
      ensures errors == map[]
    {
      this.editing := editing;
      data := if editing.Some? then FromRotation(editing.value, format) else Blank;
      errors := map[];
    }

    /** `handleChange(field)` with the typed value. */
    method Change(f: Field, v: string)
      modifies this
      ensures data == Set(old(data), f, v)
      ensures errors == ClearError(old(errors), f)
    {
      data := Set(data, f, v);
      errors := ClearError(errors, f);
    }

    /** `handleSubmit`: validates; a complete form yields the submission, with the planned date
        parsed by `parse` and the `Id` only when editing. */
    method Submit(parse: string -> Date) returns (sent: Option<Submission>)
      modifies this
      ensures data == old(data) && errors == Errors(data)
      ensures sent.Some? <==> Complete(data)
      ensures sent.Some? ==> sent.value.Id == (if editing.Some? then Some(editing.value.Id) else None)
      ensures sent.Some? ==> sent.value.data == RotationService.RotationData(
        parse(data.plannedDate), data.previousCrop, data.status, data.notes, data.farmId, data.cropId)
    {
      errors := Validate(data);
      PassesIffComplete(data);
      if |errors| != 0 {
        return None;
      }
      var payload := RotationService.RotationData(
        parse(data.plannedDate), data.previousCrop, data.status, data.notes, data.farmId, data.cropId);
      sent := Some(Submission(payload, if editing.Some? then Some(editing.value.Id) else None));
    }
  }
}
