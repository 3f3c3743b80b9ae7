/**
 * The crop form: its fields (all text, as the inputs hold them), `validateForm`, `handleChange`,
 * the edit-mode initialisation and the `cropData` payload `handleSubmit` hands to the page.
 * `parse` stands for `new Date(text)` on a date input's text, `number` for the conversion of the
 * area text to a number (`None` for `NaN`), `format` and `show` for the reverse renderings.
 */
module CropForm {
  import opened Wrappers
  import opened Dates
  import opened Records
  import opened Forms
  import Text
  import CropService

  datatype Field = FarmId | Name | Variety | PlantingDate | ExpectedHarvest | Area | Status

  datatype FormData = FormData(
    farmId: string, name: string, variety: string, plantingDate: string, expectedHarvest: string,
    area: string, status: string)

  /** The fields of a new crop. */
  const Blank := FormData("", "", "", "", "", "", "planted")

  function Get(d: FormData, f: Field): string {
    match f
    case FarmId => d.farmId
    case Name => d.name
    case Variety => d.variety
    case PlantingDate => d.plantingDate
    case ExpectedHarvest => d.expectedHarvest
    case Area => d.area
    case Status => d.status
  }

  /** `{ ...prev, [field]: value }`. */
  function Set(d: FormData, f: Field, v: string): (r: FormData)
    ensures Get(r, f) == v
    ensures forall g :: g != f ==> Get(r, g) == Get(d, g)
  {
    match f
    case FarmId => d.(farmId := v)
    case Name => d.(name := v)
    case Variety => d.(variety := v)
    case PlantingDate => d.(plantingDate := v)
    case ExpectedHarvest => d.(expectedHarvest := v)
    case Area => d.(area := v)
    case Status => d.(status := v)
  }

  /** Whether `validateForm` leaves an error under field `f`. */
  predicate Fails(d: FormData, f: Field, parse: string -> Date, number: string -> Option<int>) {
    match f
    case FarmId => d.farmId == ""
    case Name => Text.Trim(d.name) == ""
    case Variety => Text.Trim(d.variety) == ""
    case PlantingDate => d.plantingDate == ""
    case ExpectedHarvest =>
      d.expectedHarvest == "" || (d.plantingDate != "" && NotAfter(parse(d.expectedHarvest), parse(d.plantingDate)))
    case Area => d.area == "" || NotPositive(d.area, number)
    case Status => false
  }

  /** The message left under a failing field. The harvest order check runs after, and
      overrides, the harvest-date presence check. */
  function Message(d: FormData, f: Field): string {
    match f
    case FarmId => "Farm selection is required"
    case Name => "Crop name is required"
    case Variety => "Variety is required"
    case PlantingDate => "Planting date is required"
    case ExpectedHarvest =>
      if d.plantingDate != "" && d.expectedHarvest != "" then "Harvest date must be after planting date"
      else "Expected harvest date is required"
    case Area => "Area must be greater than 0"
    case Status => ""
  }

  /** The fields `validateForm` checks. */
  const Checked: set<Field> := {FarmId, Name, Variety, PlantingDate, ExpectedHarvest, Area}

  function FailsOf(d: FormData, parse: string -> Date, number: string -> Option<int>): Field -> bool {
    f => Fails(d, f, parse, number)
  }

  function MessageOf(d: FormData): Field -> string {
    f => Message(d, f)
  }

  /** The errors `validateForm` reports. */
  function Errors(d: FormData, parse: string -> Date, number: string -> Option<int>): (e: map<Field, string>)
    ensures forall f :: f in e <==> Fails(d, f, parse, number)
    ensures forall f :: f in e ==> e[f] == Message(d, f)
  {
    map f | f in Checked && FailsOf(d, parse, number)(f) :: MessageOf(d)(f)
  }

  /** What the form accepts: a farm, a name and a variety that are not blank, both dates with the
      harvest strictly after the planting, and an area that is given and not zero or negative. */
  predicate Acceptable(d: FormData, parse: string -> Date, number: string -> Option<int>) {
    && d.farmId != ""
    && !Text.Blank(d.name)
    && !Text.Blank(d.variety)
    && d.plantingDate != "" && d.expectedHarvest != ""
    && Before(parse(d.plantingDate), parse(d.expectedHarvest))
    && d.area != "" && !NotPositive(d.area, number)
  }

  /** `validateForm`: fills `newErrors` check by check. */
  method Validate(d: FormData, parse: string -> Date, number: string -> Option<int>) returns (errors: map<Field, string>)
    ensures errors == Errors(d, parse, number)
  {
    ghost var fails, message := FailsOf(d, parse, number), MessageOf(d);
    errors := ValidateRequired(d, parse, number);
    HarvestChecks(errors, d, parse, number);
    errors := Check(errors, d.expectedHarvest == "", ExpectedHarvest, "Expected harvest date is required");
    if d.plantingDate != "" && d.expectedHarvest != "" {
      errors := Check(errors, NotAfter(parse(d.expectedHarvest), parse(d.plantingDate)),
                      ExpectedHarvest, "Harvest date must be after planting date");
    }
    CheckStep(errors, fails, message, {FarmId, Name, Variety, PlantingDate, ExpectedHarvest}, Area,
              d.area == "" || NotPositive(d.area, number), "Area must be greater than 0",
              {FarmId, Name, Variety, PlantingDate, ExpectedHarvest, Area});
    errors := Check(errors, d.area == "" || NotPositive(d.area, number), Area, "Area must be greater than 0");
    ReportedAll(errors, d, parse, number);
  }

  /** The first four checks of `validateForm`, the ones that only ask for a value. */
  method ValidateRequired(d: FormData, parse: string -> Date, number: string -> Option<int>) returns (errors: map<Field, string>)
    ensures Reports(errors, FailsOf(d, parse, number), MessageOf(d), {FarmId, Name, Variety, PlantingDate})
  {
    ghost var fails, message := FailsOf(d, parse, number), MessageOf(d);
    errors := map[];
    CheckStep(errors, fails, message, {}, FarmId, d.farmId == "", "Farm selection is required", {FarmId});
    errors := Check(errors, d.farmId == "", FarmId, "Farm selection is required");
    CheckStep(errors, fails, message, {FarmId}, Name, Text.Trim(d.name) == "", "Crop name is required", {FarmId, Name});
    errors := Check(errors, Text.Trim(d.name) == "", Name, "Crop name is required");
    CheckStep(errors, fails, message, {FarmId, Name}, Variety, Text.Trim(d.variety) == "", "Variety is required",
              {FarmId, Name, Variety});
    errors := Check(errors, Text.Trim(d.variety) == "", Variety, "Variety is required");
    CheckStep(errors, fails, message, {FarmId, Name, Variety}, PlantingDate, d.plantingDate == "", "Planting date is required",
              {FarmId, Name, Variety, PlantingDate});
    errors := Check(errors, d.plantingDate == "", PlantingDate, "Planting date is required");
  }

  /** Once every checked field is accounted for, the map is the form's errors. */
  lemma ReportedAll(e: map<Field, string>, d: FormData, parse: string -> Date, number: string -> Option<int>)
    requires Reports(e, FailsOf(d, parse, number), MessageOf(d), {FarmId, Name, Variety, PlantingDate, ExpectedHarvest, Area})
    ensures e == Errors(d, parse, number)
  {
    forall g | g !in Checked ensures !FailsOf(d, parse, number)(g) {
      assert g == Status;
    }
    ReportsDone(e, FailsOf(d, parse, number), MessageOf(d), Checked);
  }

  /** The two harvest checks together account for the harvest field. */
  lemma HarvestChecks(e: map<Field, string>, d: FormData, parse: string -> Date, number: string -> Option<int>)
    requires Reports(e, FailsOf(d, parse, number), MessageOf(d), {FarmId, Name, Variety, PlantingDate})
    ensures var e1 := Check(e, d.expectedHarvest == "", ExpectedHarvest, "Expected harvest date is required");
      var e2 := if d.plantingDate != "" && d.expectedHarvest != ""
                then Check(e1, NotAfter(parse(d.expectedHarvest), parse(d.plantingDate)),
                           ExpectedHarvest, "Harvest date must be after planting date")
                else e1;
      Reports(e2, FailsOf(d, parse, number), MessageOf(d), {FarmId, Name, Variety, PlantingDate, ExpectedHarvest})
  {
  }

  /** The form passes (`Object.keys(newErrors).length === 0`) exactly when it is acceptable. */
  lemma PassesIffAcceptable(d: FormData, parse: string -> Date, number: string -> Option<int>)
    ensures |Errors(d, parse, number)| == 0 <==> Acceptable(d, parse, number)
  {
    var e := Errors(d, parse, number);
    Text.TrimEmptyIffBlank(d.name);
    Text.TrimEmptyIffBlank(d.variety);
    forall f | Fails(d, f, parse, number) ensures |e| != 0 {
      assert f in e;
    }
    if Acceptable(d, parse, number) {
      forall f ensures !Fails(d, f, parse, number) {
      }
      assert e.Keys == {};
    } else {
      if d.farmId == "" { assert Fails(d, FarmId, parse, number); }
      else if Text.Blank(d.name) { assert Fails(d, Name, parse, number); }
      else if Text.Blank(d.variety) { assert Fails(d, Variety, parse, number); }
      else if d.plantingDate == "" { assert Fails(d, PlantingDate, parse, number); }
      else if d.area == "" || NotPositive(d.area, number) { assert Fails(d, Area, parse, number); }
      else { assert Fails(d, ExpectedHarvest, parse, number); }
    }
  }

  /** A harvest date on or before the planting date is reported under the harvest field, with
      its own message, whatever else is wrong. */
  lemma HarvestOrderReported(d: FormData, parse: string -> Date, number: string -> Option<int>)
    requires d.plantingDate != "" && d.expectedHarvest != ""
    requires !Before(parse(d.plantingDate), parse(d.expectedHarvest))
    ensures var e := Errors(d, parse, number);
      ExpectedHarvest in e && e[ExpectedHarvest] == "Harvest date must be after planting date"
  {
  }

  /** The form as `useEffect` fills it for editing crop `c`. */
  function FromCrop(c: Crop, format: Date -> string, show: int -> string): (d: FormData)
    ensures d.farmId == c.farmId && d.name == c.name && d.variety == c.variety
    ensures d.plantingDate == format(c.plantingDate) && d.expectedHarvest == format(c.expectedHarvest)
    ensures d.area == show(c.area)
    ensures d.status != "" && (c.status != "" ==> d.status == c.status)
  {
    FormData(c.farmId, c.name, c.variety, format(c.plantingDate), format(c.expectedHarvest), show(c.area),
             if c.status == "" then "planted" else c.status)
  }

  /** The `cropData` payload built from the fields (without the `Id`). */
  function Payload(d: FormData, parse: string -> Date, number: string -> Option<int>): (p: CropService.CropData)
    ensures p.farmId == d.farmId && p.name == d.name && p.variety == d.variety && p.status == d.status
    ensures p.plantingDate == parse(d.plantingDate) && p.expectedHarvest == parse(d.expectedHarvest)
    ensures p.area == number(d.area)
  {
    CropService.CropData(d.name, d.variety, parse(d.plantingDate), parse(d.expectedHarvest), number(d.area), d.status, d.farmId)
  }

  /** A crop opened for editing and submitted untouched is sent back as it was, when the date
      and number renderings read back as what they rendered. */
  lemma EditRoundTrip(c: Crop, format: Date -> string, show: int -> string, parse: string -> Date, number: string -> Option<int>)
    requires parse(format(c.plantingDate)) == c.plantingDate && parse(format(c.expectedHarvest)) == c.expectedHarvest
    requires number(show(c.area)) == Some(c.area)
    requires c.status != ""
    ensures Payload(FromCrop(c, format, show), parse, number) ==
      CropService.CropData(c.name, c.variety, c.plantingDate, c.expectedHarvest, Some(c.area), c.status, c.farmId)
  {
  }

  /** What `handleSubmit` hands to the page: the payload and, when editing, the crop's `Id`. */
  datatype Submission = Submission(data: CropService.CropData, Id: Option<nat>)

  class Form {
    var data: FormData
    var errors: map<Field, string>
    /** The crop being edited, `None` when adding. */
    const editing: Option<Crop>

    constructor(editing: Option<Crop>, format: Date -> string, show: int -> string)
      ensures this.editing == editing
      ensures data == (if editing.Some? then FromCrop(editing.value, format, show) else Blank)
      ensures errors == map[]
    {
      this.editing := editing;
      data := if editing.Some? then FromCrop(editing.value, format, show) else Blank;
      errors := map[];
    }

    /** `handleChange(field)` with the typed value. */
    method Change(f: Field, v: string)
      modifies this
      ensures data == Set(old(data), f, v)
      ensures errors == ClearError(old(errors), f)
    {
      data := Set(data, f, v);
      errors := ClearError(errors, f);
    }

    /** `handleSubmit`: validates; an acceptable form yields its payload, with the `Id` only when
        editing. */
    method Submit(parse: string -> Date, number: string -> Option<int>) returns (sent: Option<Submission>)
      modifies this
      ensures data == old(data) && errors == Errors(data, parse, number)
      ensures sent.Some? <==> Acceptable(data, parse, number)
      ensures sent.Some? ==> sent.value == Submission(
        Payload(data, parse, number), if editing.Some? then Some(editing.value.Id) else None)
    {
      errors := Validate(data, parse, number);
      PassesIffAcceptable(data, parse, number);
      if |errors| != 0 {
        return None;
      }
      sent := Some(Submission(Payload(data, parse, number), if editing.Some? then Some(editing.value.Id) else None));
    }
  }
}
