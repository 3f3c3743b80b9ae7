/**
 * What every form component shares: an `errors` dictionary from field to message, where a field
 * shows an error when its entry is a non-empty string, and the `handleChange` rule that typing
 * into a field whose error is showing blanks that error (the entry stays, set to `""`).
 */
module Forms {
  import opened Wrappers

  /** Whether the form displays an error under field `f`. */
  predicate Shown<F>(errors: map<F, string>, f: F) {
    f in errors && errors[f] != ""
  }

  /** `if (errors[field]) setErrors(prev => ({ ...prev, [field]: "" }))`. */
  function ClearError<F>(errors: map<F, string>, f: F): (r: map<F, string>)
    ensures r.Keys == errors.Keys
    ensures !Shown(r, f)
    ensures forall g :: g in errors && g != f ==> r[g] == errors[g]
  {
    if Shown(errors, f) then errors[f := ""] else errors
  }

  /** `text <= 0` on an input's text, which JavaScript compares as a number: false when the
      text is not a number (`number` gives `None` for `NaN`). */
  predicate NotPositive(text: string, number: string -> Option<int>) {
    number(text).Some? && number(text).value <= 0
  }

  /** `if (failed) newErrors[f] = message`: one check of a `validateForm`. */
  function Check<F>(errors: map<F, string>, failed: bool, f: F, message: string): (r: map<F, string>)
    ensures forall g :: g in r ==> g in errors || (failed && g == f)
    ensures forall g :: g in errors ==> g in r
    ensures failed ==> f in r && r[f] == message
    ensures forall g :: g in errors && !(failed && g == f) ==> r[g] == errors[g]
  {
    if failed then errors[f := message] else errors
  }

  /** `e` holds exactly the errors of the checked `fields`: a field is in it when its check
      fails, under its message. */
  ghost predicate Reports<F(!new)>(e: map<F, string>, fails: F -> bool, message: F -> string, fields: set<F>) {
    forall g {:trigger g in e} :: (g in e <==> g in fields && fails(g)) && (g in e ==> e[g] == message(g))
  }

  /** One more check accounts for one more field. */
  lemma CheckStep<F(!new)>(e: map<F, string>, fails: F -> bool, message: F -> string, fields: set<F>,
                          f: F, failed: bool, text: string, fields': set<F>)
    requires Reports(e, fails, message, fields) && f !in fields && fields' == fields + {f}
    requires failed == fails(f) && (failed ==> text == message(f))
    ensures Reports(Check(e, failed, f, text), fails, message, fields')
  {
  }

  /** Once every field that can fail is accounted for, the map is the whole error report. */
  lemma ReportsDone<F(!new)>(e: map<F, string>, fails: F -> bool, message: F -> string, fields: set<F>)
    requires Reports(e, fails, message, fields)
    requires forall g :: g !in fields ==> !fails(g)
    ensures e == (map g | g in fields && fails(g) :: message(g))
  {
  }

  /** No field shows an error. */
  predicate NoneShown<F>(errors: map<F, string>) {
    forall f :: f in errors ==> errors[f] == ""
  }

  /** Editing a field hides its own error and leaves every other field's display alone; a form
      that showed no errors still shows none. */
  lemma ClearErrorDisplay<F>(errors: map<F, string>, f: F)
    ensures forall g :: g != f ==> (Shown(ClearError(errors, f), g) <==> Shown(errors, g))
    ensures NoneShown(errors) ==> NoneShown(ClearError(errors, f))
  {
  }
}
