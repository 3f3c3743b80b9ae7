/**
 * The farm form: its fields (as text), `validateForm`, `handleChange`, the edit-mode
 * initialisation, the `farmData` payload and the blank-location guard in front of the weather
 * generator. `number` stands for `parseFloat`/`Number` on the size text (`None` for `NaN`) and
 * `show` for the size's rendering as text.
 */
module FarmForm {
  import opened Wrappers
  import opened Records
  import opened Forms
  import Text
  import FarmService

  datatype Field = Name | Location | Size | SoilType | Summary

  datatype FormData = FormData(
    name: string, location: string, size: string, soilType: string, weatherSummary: string)

  const Blank: FormData := FormData("", "", "", "loam", "")

  function Get(d: FormData, f: Field): string {
    match f
    case Name => d.name
    case Location => d.location
    case Size => d.size
    case SoilType => d.soilType
    case Summary => d.weatherSummary
  }

  /** `{ ...prev, [field]: value }`. */
  function Set(d: FormData, f: Field, v: string): (r: FormData)
    ensures Get(r, f) == v
    ensures forall g :: g != f ==> Get(r, g) == Get(d, g)
  {
    match f
    case Name => d.(name := v)
    case Location => d.(location := v)
    case Size => d.(size := v)
    case SoilType => d.(soilType := v)
    case Summary => d.(weatherSummary := v)
  }

  predicate Fails(d: FormData, f: Field, number: string -> Option<int>) {
    match f
    case Name => Text.Trim(d.name) == ""
    case Location => Text.Trim(d.location) == ""
    case Size => d.size == "" || NotPositive(d.size, number)
    case SoilType => false
    case Summary => false
  }

  function Message(f: Field): string {
    match f
    case Name => "Farm name is required"
    case Location => "Location is required"
    case Size => "Size must be greater than 0"
    case SoilType => ""
    case Summary => ""
  }

  /** The fields `validateForm` checks. */
  const Checked: set<Field> := {Name, Location, Size}

  function FailsOf(d: FormData, number: string -> Option<int>): Field -> bool {
    f => Fails(d, f, number)
  }

  function MessageOf(): Field -> string {
    f => Message(f)
  }

  /** The errors `validateForm` reports. */
  function Errors(d: FormData, number: string -> Option<int>): (e: map<Field, string>)
    ensures forall f :: f in e <==> Fails(d, f, number)
    ensures forall f :: f in e ==> e[f] == Message(f)
  {
    map f | f in Checked && FailsOf(d, number)(f) :: MessageOf()(f)
  }

  /** What the form accepts: a name and a location that are not blank, and a size that is given
      and not zero or negative. */
  predicate Acceptable(d: FormData, number: string -> Option<int>) {
    && !Text.Blank(d.name)
    && !Text.Blank(d.location)
    && d.size != "" && !NotPositive(d.size, number)
  }

  /** `validateForm`: fills `newErrors` check by check. */
  method Validate(d: FormData, number: string -> Option<int>) returns (errors: map<Field, string>)
    ensures errors == Errors(d, number)
  {
    ghost var fails, message := FailsOf(d, number), MessageOf();
    errors := map[];
    CheckStep(errors, fails, message, {}, Name, Text.Trim(d.name) == "", "Farm name is required", {Name});
    errors := Check(errors, Text.Trim(d.name) == "", Name, "Farm name is required");
    CheckStep(errors, fails, message, {Name}, Location, Text.Trim(d.location) == "", "Location is required", {Name, Location});
    errors := Check(errors, Text.Trim(d.location) == "", Location, "Location is required");
    CheckStep(errors, fails, message, {Name, Location}, Size, d.size == "" || NotPositive(d.size, number),
              "Size must be greater than 0", {Name, Location, Size});
    errors := Check(errors, d.size == "" || NotPositive(d.size, number), Size, "Size must be greater than 0");
    ReportedAll(errors, d, number);
  }

  /** Once every checked field is accounted for, the map is the form's errors. */
  lemma ReportedAll(e: map<Field, string>, d: FormData, number: string -> Option<int>)
    requires Reports(e, FailsOf(d, number), MessageOf(), {Name, Location, Size})
    ensures e == Errors(d, number)
  {
    forall g | g !in Checked ensures !FailsOf(d, number)(g) {
      assert g == SoilType || g == Summary;
    }
    ReportsDone(e, FailsOf(d, number), MessageOf(), Checked);
  }

  /** The form passes (`Object.keys(newErrors).length === 0`) exactly when it is acceptable. */
  lemma PassesIffAcceptable(d: FormData, number: string -> Option<int>)
    ensures |Errors(d, number)| == 0 <==> Acceptable(d, number)
  {
    var e := Errors(d, number);
    Text.TrimEmptyIffBlank(d.name);
    Text.TrimEmptyIffBlank(d.location);
    forall f | Fails(d, f, number) ensures |e| != 0 {
      assert f in e;
    }
    if Acceptable(d, number) {
      forall f ensures !Fails(d, f, number) {
      }
      assert e.Keys == {};
    } else {
      if Text.Blank(d.name) { assert Fails(d, Name, number); }
      else if Text.Blank(d.location) { assert Fails(d, Location, number); }
      else { assert Fails(d, Size, number); }
    }
  }

  /** The text the summary field starts from when a farm is edited: the farm's own text, the
      summary sentence of a looked-up report, or nothing. */
  function SummaryText(s: SummaryField): (t: string)
    ensures s.Text? ==> t == s.text
    ensures s.Report? ==> t == s.report.summary
    ensures s.Null? ==> t == ""
  {
    match s
    case Text(text) => text
    case Report(r) => r.summary
    case Null => ""
  }

  /** The form as `useEffect` fills it for editing farm `f`, with the summary read through
      `SummaryText`. */
  function FromFarm(f: Farm, show: int -> string): (d: FormData)
    ensures d.name == f.name && d.location == f.location && d.size == show(f.size)
    ensures d.soilType != "" && (f.soilType != "" ==> d.soilType == f.soilType)
    ensures f.weatherSummary.Text? ==> d.weatherSummary == f.weatherSummary.text
    ensures f.weatherSummary.Report? ==> d.weatherSummary == f.weatherSummary.report.summary
    ensures f.weatherSummary.Null? ==> d.weatherSummary == ""
  {
    FormData(f.name, f.location, show(f.size), if f.soilType == "" then "loam" else f.soilType,
             SummaryText(f.weatherSummary))
  }

  /** The `farmData` payload built from the fields (without the `Id`): the size parsed, the
      summary trimmed. */
  function Payload(d: FormData, number: string -> Option<int>): (p: FarmService.FarmData)
    ensures p.name == d.name && p.location == d.location && p.soilType == d.soilType
    ensures p.size == number(d.size)
    ensures p.weatherSummary == "" <==> Text.Blank(d.weatherSummary)
  {
    Text.TrimEmptyIffBlank(d.weatherSummary);
    FarmService.FarmData(d.name, d.location, number(d.size), d.soilType, Text.Trim(d.weatherSummary))
  }

  /** A farm opened for editing and submitted untouched is sent back as it was, its summary
      (text or report) trimmed, when the size's rendering reads back as the size. */
  lemma EditRoundTrip(f: Farm, show: int -> string, number: string -> Option<int>)
    requires number(show(f.size)) == Some(f.size)
    requires f.soilType != ""
    ensures Payload(FromFarm(f, show), number) ==
      FarmService.FarmData(f.name, f.location, Some(f.size), f.soilType, Text.Trim(SummaryText(f.weatherSummary)))
    ensures f.weatherSummary.Report? ==>
      Payload(FromFarm(f, show), number).weatherSummary == Text.Trim(f.weatherSummary.report.summary)
  {
  }

  // ---- the summary field as the code writes it ----

  /** `farm.weatherSummary || ""` as the edit effect writes it: the field takes whatever the farm
      holds, a report object included; only `null` becomes `""`. */
  function SummaryFieldAsWritten(s: SummaryField): (r: SummaryField)
    ensures s.Null? ==> r == Text("")
    ensures !s.Null? ==> r == s
  {
    match s
    case Null => Text("")
    case _ => s
  }

  /** `formData.weatherSummary.trim()` at submit: the trimmed text, or `None` when the field holds
      an object, which has no `trim` and makes `handleSubmit` throw. */
  function SubmittedSummaryAsWritten(s: SummaryField): (r: Option<string>)
    ensures r.Some? <==> s.Text?
    ensures s.Text? ==> r.value == Text.Trim(s.text)
  {
    match s
    case Text(t) => Some(Text.Trim(t))
    case _ => None
  }

  /** A farm whose summary is a report (every farm the Farms page loaded with a successful
      lookup) cannot be submitted from the edit form as written, while `FromFarm` submits the
      report's summary sentence. */
  lemma ReportSummaryBreaksEdit(f: Farm, show: int -> string, number: string -> Option<int>)
    requires f.weatherSummary.Report?
    ensures SubmittedSummaryAsWritten(SummaryFieldAsWritten(f.weatherSummary)).None?
    ensures Payload(FromFarm(f, show), number).weatherSummary == Text.Trim(f.weatherSummary.report.summary)
  {
  }

  /** On text and `null` summaries the code as written and `SummaryText` agree. */
  lemma SummaryTextAgreesOnText(s: SummaryField)
    requires !s.Report?
    ensures SubmittedSummaryAsWritten(SummaryFieldAsWritten(s)) == Some(Text.Trim(SummaryText(s)))
  {
  }

  /** What `handleSubmit` hands to the page: the payload and, when editing, the farm's `Id`. */
  datatype Submission = Submission(data: FarmService.FarmData, Id: Option<nat>)

  class Form {
    var data: FormData
    var errors: map<Field, string>
    /** The farm being edited, `None` when adding. */
    const editing: Option<Farm>

    constructor(editing: Option<Farm>, show: int -> string)
      ensures this.editing == editing
      ensures data == (if editing.Some? then FromFarm(editing.value, show) else Blank)
      ensures errors == map[]
    {
      this.editing := editing;
      data := if editing.Some? then FromFarm(editing.value, show) else Blank;
      errors := map[];
    }

    /** `handleChange(field)` with the typed value. */
    method Change(f: Field, v: string)
      modifies this
      ensures data == Set(old(data), f, v)
      ensures errors == ClearError(old(errors), f)
    {
      data := Set(data, f, v);
      errors := ClearError(errors, f);
    }

    /** `handleSubmit`: validates; an acceptable form yields its payload, with the `Id` only when
        editing. */
    method Submit(number: string -> Option<int>) returns (sent: Option<Submission>)
      modifies this
      ensures data == old(data) && errors == Errors(data, number)
      ensures sent.Some? <==> Acceptable(data, number)
      ensures sent.Some? ==> sent.value == Submission(
        Payload(data, number), if editing.Some? then Some(editing.value.Id) else None)
    {
      errors := Validate(data, number);
      PassesIffAcceptable(data, number);
      if |errors| != 0 {
        return None;
      }
      sent := Some(Submission(Payload(data, number), if editing.Some? then Some(editing.value.Id) else None));
    }

    /** `handleGenerateWeather`: refused, with the form untouched, while the location is blank;
        otherwise `generated` is the summary the remote generator answered with (`None` when the
        client is unavailable or the call failed), which replaces the summary field. */
    method GenerateWeather(generated: Option<string>) returns (refused: bool)
      modifies this
      ensures refused <==> Text.Blank(old(data).location)
      ensures errors == old(errors)
      ensures refused || generated.None? ==> data == old(data)
      ensures !refused && generated.Some? ==> data == Set(old(data), Summary, generated.value)
    {
      Text.TrimEmptyIffBlank(data.location);
      if Text.Trim(data.location) == "" {
        return true;
      }
      refused := false;
      if generated.Some? {
        data := Set(data, Summary, generated.value);
      }
    }
  }
}
