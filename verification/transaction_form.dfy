/**
 * The transaction form: its fields (as text), the category lists offered for each type,
 * `validateForm`, `handleChange` with the category reset on a type change, the edit-mode
 * initialisation and the `transactionData` payload. `parse`, `number`, `format` and `show` read
 * and render dates and amounts as in the crop form.
 */
module TransactionForm {
  import opened Wrappers
  import opened Dates
  import opened Records
  import opened Forms
  import Text
  import TransactionService

  /** `Kind` is the form's `type` field. */
  datatype Field = FarmId | Kind | Category | Amount | Description | When

  datatype FormData = FormData(
    farmId: string, kind: string, category: string, amount: string, description: string, date: string)

  /** The fields of a new transaction; `today` is today's date as `yyyy-MM-dd`. */
  function Blank(today: string): FormData {
    FormData("", "expense", "", "", "", today)
  }

  const ExpenseCategories: seq<string> := [
    "seeds", "fertilizer", "pesticides", "equipment", "fuel", "labor",
    "maintenance", "insurance", "utilities", "storage", "transportation", "other"]

  const IncomeCategories: seq<string> := [
    "crop_sales", "livestock", "subsidies", "grants", "equipment_rental", "other"]

  /** `getCurrentCategories`: the categories the select offers for the chosen type. */
  function CurrentCategories(d: FormData): (cs: seq<string>)
    ensures d.kind == "income" ==> cs == IncomeCategories
    ensures d.kind != "income" ==> cs == ExpenseCategories
  {
    if d.kind == "income" then IncomeCategories else ExpenseCategories
  }

  /** "other" is offered whatever the type; no other category is offered for both types. */
  lemma CategoryListsShareOnlyOther(d: FormData)
    ensures "other" in CurrentCategories(d)
    ensures forall c :: c in IncomeCategories && c in ExpenseCategories ==> c == "other"
  {
    assert IncomeCategories[5] == "other" && ExpenseCategories[11] == "other";
  }

  function Get(d: FormData, f: Field): string {
    match f
    case FarmId => d.farmId
    case Kind => d.kind
    case Category => d.category
    case Amount => d.amount
    case Description => d.description
    case When => d.date
  }

  /** `{ ...prev, [field]: value }`. */
  function Set(d: FormData, f: Field, v: string): (r: FormData)
    ensures Get(r, f) == v
    ensures forall g :: g != f ==> Get(r, g) == Get(d, g)
  {
    match f
    case FarmId => d.(farmId := v)
    case Kind => d.(kind := v)
    case Category => d.(category := v)
    case Amount => d.(amount := v)
    case Description => d.(description := v)
    case When => d.(date := v)
  }

  /** The form after `handleChange(field)`: the field takes the value, and a change of type
      also empties the category. */
  function Changed(d: FormData, f: Field, v: string): (r: FormData)
    ensures f != Kind ==> r == Set(d, f, v)
    ensures f == Kind ==> r.kind == v && r.category == ""
    ensures f == Kind ==> forall g :: g != Kind && g != Category ==> Get(r, g) == Get(d, g)
  {
    if f == Kind then Set(d, Kind, v).(category := "") else Set(d, f, v)
  }

  predicate Fails(d: FormData, f: Field, number: string -> Option<int>) {
    match f
    case FarmId => d.farmId == ""
    case Category => d.category == ""
    case Amount => d.amount == "" || NotPositive(d.amount, number)
    case Description => Text.Trim(d.description) == ""
    case When => d.date == ""
    case Kind => false
  }

  function Message(f: Field): string {
    match f
    case FarmId => "Farm selection is required"
    case Category => "Category is required"
    case Amount => "Amount must be greater than 0"
    case Description => "Description is required"
    case When => "Date is required"
    case Kind => ""
  }

  /** The fields `validateForm` checks. */
  const Checked: set<Field> := {FarmId, Category, Amount, Description, When}

  function FailsOf(d: FormData, number: string -> Option<int>): Field -> bool {
    f => Fails(d, f, number)
  }

  function MessageOf(): Field -> string {
    f => Message(f)
  }

  /** The errors `validateForm` reports. */
  function Errors(d: FormData, number: string -> Option<int>): (e: map<Field, string>)
    ensures forall f :: f in e <==> Fails(d, f, number)
    ensures forall f :: f in e ==> e[f] == Message(f)
  {
    map f | f in Checked && FailsOf(d, number)(f) :: MessageOf()(f)
  }

  /** What the form accepts: a farm, a category, an amount that is given and not zero or
      negative, a description that is not blank, and a date. */
  predicate Acceptable(d: FormData, number: string -> Option<int>) {
    && d.farmId != ""
    && d.category != ""
    && d.amount != "" && !NotPositive(d.amount, number)
    && !Text.Blank(d.description)
    && d.date != ""
  }

  /** `validateForm`: fills `newErrors` check by check. */
  method Validate(d: FormData, number: string -> Option<int>) returns (errors: map<Field, string>)
    ensures errors == Errors(d, number)
  {
    ghost var fails, message := FailsOf(d, number), MessageOf();
    errors := map[];
    CheckStep(errors, fails, message, {}, FarmId, d.farmId == "", "Farm selection is required", {FarmId});
    errors := Check(errors, d.farmId == "", FarmId, "Farm selection is required");
    CheckStep(errors, fails, message, {FarmId}, Category, d.category == "", "Category is required", {FarmId, Category});
    errors := Check(errors, d.category == "", Category, "Category is required");
    CheckStep(errors, fails, message, {FarmId, Category}, Amount, d.amount == "" || NotPositive(d.amount, number),
              "Amount must be greater than 0", {FarmId, Category, Amount});
    errors := Check(errors, d.amount == "" || NotPositive(d.amount, number), Amount, "Amount must be greater than 0");
    CheckStep(errors, fails, message, {FarmId, Category, Amount}, Description, Text.Trim(d.description) == "",
              "Description is required", {FarmId, Category, Amount, Description});
    errors := Check(errors, Text.Trim(d.description) == "", Description, "Description is required");
    CheckStep(errors, fails, message, {FarmId, Category, Amount, Description}, When, d.date == "",
              "Date is required", {FarmId, Category, Amount, Description, When});
    errors := Check(errors, d.date == "", When, "Date is required");
    ReportedAll(errors, d, number);
  }

  /** Once every checked field is accounted for, the map is the form's errors. */
  lemma ReportedAll(e: map<Field, string>, d: FormData, number: string -> Option<int>)
    requires Reports(e, FailsOf(d, number), MessageOf(), {FarmId, Category, Amount, Description, When})
    ensures e == Errors(d, number)
  {
    forall g | g !in Checked ensures !FailsOf(d, number)(g) {
      assert g == Kind;
    }
    ReportsDone(e, FailsOf(d, number), MessageOf(), Checked);
  }

  /** The form passes (`Object.keys(newErrors).length === 0`) exactly when it is acceptable. */
  lemma PassesIffAcceptable(d: FormData, number: string -> Option<int>)
    ensures |Errors(d, number)| == 0 <==> Acceptable(d, number)
  {
    var e := Errors(d, number);
    Text.TrimEmptyIffBlank(d.description);
    forall f | Fails(d, f, number) ensures |e| != 0 {
      assert f in e;
    }
    if Acceptable(d, number) {
      forall f ensures !Fails(d, f, number) {
      }
      assert e.Keys == {};
    } else {
      if d.farmId == "" { assert Fails(d, FarmId, number); }
      else if d.category == "" { assert Fails(d, Category, number); }
      else if d.amount == "" || NotPositive(d.amount, number) { assert Fails(d, Amount, number); }
      else if Text.Blank(d.description) { assert Fails(d, Description, number); }
      else { assert Fails(d, When, number); }
    }
  }

  /** Switching the type empties the category, so the form cannot be submitted until a category
      of the new type is picked. */
  lemma TypeChangeNeedsNewCategory(d: FormData, v: string, number: string -> Option<int>)
    ensures var r := Changed(d, Kind, v);
      Category in Errors(r, number) && !Acceptable(r, number)
  {
  }

  /** The form as `useEffect` fills it for editing transaction `t`. */
  function FromTransaction(t: Transaction, format: Date -> string, show: int -> string): (d: FormData)
    ensures d.farmId == t.farmId && d.category == t.category && d.description == t.description
    ensures d.amount == show(t.amount) && d.date == format(t.date)
    ensures d.kind != "" && (t.kind != "" ==> d.kind == t.kind)
  {
    FormData(t.farmId, if t.kind == "" then "expense" else t.kind, t.category, show(t.amount), t.description, format(t.date))
  }

  /** The `transactionData` payload built from the fields (without the `Id`). */
  function Payload(d: FormData, parse: string -> Date, number: string -> Option<int>): (p: TransactionService.TransactionData)
    ensures p.farmId == d.farmId && p.kind == d.kind && p.category == d.category && p.description == d.description
    ensures p.amount == number(d.amount) && p.date == parse(d.date)
  {
    TransactionService.TransactionData(d.kind, d.category, number(d.amount), d.description, parse(d.date), d.farmId)
  }

  /** A transaction opened for editing and submitted untouched is sent back as it was, when the
      date and number renderings read back as what they rendered. */
  lemma EditRoundTrip(t: Transaction, format: Date -> string, show: int -> string, parse: string -> Date, number: string -> Option<int>)
    requires parse(format(t.date)) == t.date && number(show(t.amount)) == Some(t.amount)
    requires t.kind != ""
    ensures Payload(FromTransaction(t, format, show), parse, number) ==
      TransactionService.TransactionData(t.kind, t.category, Some(t.amount), t.description, t.date, t.farmId)
  {
  }

  /** What `handleSubmit` hands to the page: the payload and, when editing, the `Id`. */
  datatype Submission = Submission(data: TransactionService.TransactionData, Id: Option<nat>)

  class Form {
    var data: FormData
    var errors: map<Field, string>
    /** The transaction being edited, `None` when adding. */
    const editing: Option<Transaction>

    constructor(editing: Option<Transaction>, today: string, format: Date -> string, show: int -> string)
      ensures this.editing == editing
      ensures data == (if editing.Some? then FromTransaction(editing.value, format, show) else Blank(today))
      ensures errors == map[]
    {
      this.editing := editing;
      data := if editing.Some? then FromTransaction(editing.value, format, show) else Blank(today);
      errors := map[];
    }

    /** `handleChange(field)` with the typed value. */
    method Change(f: Field, v: string)
      modifies this
      ensures data == Changed(old(data), f, v)
      ensures errors == ClearError(old(errors), f)
    {
      data := Changed(data, f, v);
      errors := ClearError(errors, f);
    }

    /** `handleSubmit`: validates; an acceptable form yields its payload, with the `Id` only when
        editing. */
    method Submit(parse: string -> Date, number: string -> Option<int>) returns (sent: Option<Submission>)
      modifies this
      ensures data == old(data) && errors == Errors(data, number)
      ensures sent.Some? <==> Acceptable(data, number)
      ensures sent.Some? ==> sent.value == Submission(
        Payload(data, parse, number), if editing.Some? then Some(editing.value.Id) else None)
    {
      errors := Validate(data, number);
      PassesIffAcceptable(data, number);
      if |errors| != 0 {
        return None;
      }
      sent := Some(Submission(Payload(data, parse, number), if editing.Some? then Some(editing.value.Id) else None));
    }

    /** The categories the select currently offers. */
    function Categories(): seq<string>
      reads this
    {
      CurrentCategories(data)
    }
  }
}
