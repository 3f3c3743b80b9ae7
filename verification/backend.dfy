/**
 * The shape of the hosted record store's answers, and the error policy every service wraps
 * around them: list reads swallow failures and return `[]`, single reads throw "not found",
 * writes throw the backend's message or "Failed to ..." when no record comes back.
 * The store itself (the SDK calls) is not modelled: its answers are inputs.
 */
module Backend {
  import opened Wrappers
  import Text

  /** A lookup field as the store returns it: `{Id, Name}` of the referenced record. */
  datatype Lookup = Lookup(Id: Option<nat>, Name: Option<string>)

  /** Answer to `fetchRecords`; `FetchThrew` is an exception raised by the call. */
  datatype Fetch<R> = Fetched(success: bool, data: Option<seq<R>>) | FetchThrew

  /** Answer to `getRecordById`; `Single(None)` covers both a null response and a missing `data`. */
  datatype Single<R> = Single(data: Option<R>) | SingleThrew(message: string)

  /** One entry of a write's `results`. */
  datatype Outcome<R> = Outcome(success: Option<bool>, data: Option<R>)

  /** Answer to `createRecord`, `updateRecord` or `deleteRecord`. */
  datatype Mutation<R> =
    | Mutation(success: bool, message: string, results: Option<seq<Outcome<R>>>)
    | MutationThrew(message: string)

  /** What a service method throws. */
  datatype Failure =
    | NotFound(entity: string, id: int)   // "<Entity> with ID <id> not found"
    | Rejected(message: string)           // the backend's message, or the call's own exception
    | NothingReturned(message: string)    // "Failed to create ..." / "Failed to update ..."

  // ---- field translation helpers ----

  /** `field || fallback` on a text field: absent and empty both fall back. */
  function Or(field: Option<string>, fallback: string): (r: string)
    ensures field.Some? && field.value != "" ==> r == field.value
    ensures (field.None? || field.value == "") ==> r == fallback
  {
    if field.Some? && field.value != "" then field.value else fallback
  }

  /** `field || 0` on a numeric field, and `parseFloat(x) || 0` where `None` stands for NaN. */
  function OrZero(field: Option<int>): (r: int)
    ensures field.Some? ==> r == field.value
    ensures field.None? ==> r == 0
  {
    if field.Some? then field.value else 0
  }

  /** `field || false` on a flag. */
  function OrFalse(field: Option<bool>): (r: bool)
    ensures r <==> field == Some(true)
  {
    field == Some(true)
  }

  /** `lookup?.Id?.toString() || ''` (an Id's text is never empty, so it is kept). */
  function IdTextOr(lookup: Option<Lookup>): (r: string)
    ensures lookup.Some? && lookup.value.Id.Some? ==> r == Text.IdText(lookup.value.Id.value)
    ensures !(lookup.Some? && lookup.value.Id.Some?) ==> r == ""
  {
    if lookup.Some? && lookup.value.Id.Some? then Text.IdText(lookup.value.Id.value) else ""
  }

  /** `lookup?.Id?.toString() || null`. */
  function IdTextOrNull(lookup: Option<Lookup>): (r: Option<string>)
    ensures lookup.Some? && lookup.value.Id.Some? ==> r == Some(Text.IdText(lookup.value.Id.value))
    ensures !(lookup.Some? && lookup.value.Id.Some?) ==> r == None
  {
    if lookup.Some? && lookup.value.Id.Some? then Some(Text.IdText(lookup.value.Id.value)) else None
  }

  /** `lookup?.Name || fallback`: the lookup's name when it has a non-empty one, otherwise the
      fallback (no lookup, a lookup without a name, or an empty name). */
  function NameOr(lookup: Option<Lookup>, fallback: string): (r: string)
    ensures lookup.Some? && lookup.value.Name.Some? && lookup.value.Name.value != "" ==> r == lookup.value.Name.value
    ensures !(lookup.Some? && lookup.value.Name.Some? && lookup.value.Name.value != "") ==> r == fallback
  {
    Or(if lookup.Some? then lookup.value.Name else None, fallback)
  }

  /** `lookup?.Name || null`. */
  function NameOrNull(lookup: Option<Lookup>): (r: Option<string>)
    ensures lookup.Some? && lookup.value.Name.Some? && lookup.value.Name.value != "" ==> r == lookup.value.Name
    ensures !(lookup.Some? && lookup.value.Name.Some? && lookup.value.Name.value != "") ==> r == None
  {
    if lookup.Some? && lookup.value.Name.Some? && lookup.value.Name.value != "" then lookup.value.Name else None
  }

  // ---- the error policy ----

  /** List reads (`getAll`, `getByFarmId`, `getByYear`, `getUpcoming`): the decoded records on a
      successful answer, `[]` on an unsuccessful answer or an exception. */
  function ReadAll<R, V>(resp: Fetch<R>, decode: R -> V): (r: seq<V>)
    ensures !(resp.Fetched? && resp.success && resp.data.Some?) ==> r == []
    ensures resp.Fetched? && resp.success && resp.data.Some? ==>
      |r| == |resp.data.value| && forall i :: 0 <= i < |r| ==> r[i] == decode(resp.data.value[i])
  {
    if resp.Fetched? && resp.success && resp.data.Some? then
      seq(|resp.data.value|, i requires 0 <= i < |resp.data.value| => decode(resp.data.value[i]))
    else []
  }

  /** `getById(id)`: the decoded record, "not found" without data, the call's exception rethrown. */
  function ReadOne<R, V>(resp: Single<R>, entity: string, id: int, decode: R -> V): (r: Result<V, Failure>)
    ensures resp.Single? && resp.data.None? ==> r == Err(NotFound(entity, id))
    ensures resp.Single? && resp.data.Some? ==> r == Ok(decode(resp.data.value))
    ensures resp.SingleThrew? ==> r == Err(Rejected(resp.message))
  {
    match resp
    case SingleThrew(m) => Err(Rejected(m))
    case Single(data) => if data.Some? then Ok(decode(data.value)) else Err(NotFound(entity, id))
  }

  /** `response.results?.[0]?.data`. */
  function FirstData<R>(results: Option<seq<Outcome<R>>>): (r: Option<R>)
    ensures results.None? || results.value == [] ==> r.None?
    ensures results.Some? && results.value != [] ==> r == results.value[0].data
  {
    if results.Some? && |results.value| > 0 then results.value[0].data else None
  }

  /** `create`/`update`: the decoded written record; the backend's message when it refuses; the
      given "Failed to ..." message when no record comes back. */
  function ReadWritten<R, V>(resp: Mutation<R>, decode: R -> V, failed: string): (r: Result<V, Failure>)
    ensures r.Ok? <==> resp.Mutation? && resp.success && FirstData(resp.results).Some?
    ensures r.Ok? ==> r.value == decode(FirstData(resp.results).value)
    ensures resp.Mutation? && !resp.success ==> r == Err(Rejected(resp.message))
    ensures resp.Mutation? && resp.success && FirstData(resp.results).None? ==> r == Err(NothingReturned(failed))
  {
    match resp
    case MutationThrew(m) => Err(Rejected(m))
    case Mutation(success, message, results) =>
      if !success then Err(Rejected(message))
      else if FirstData(results).Some? then Ok(decode(FirstData(results).value))
      else Err(NothingReturned(failed))
  }

  /** `delete`: `response.results?.[0]?.success || false` when the backend accepts. */
  function ReadDeleted<R>(resp: Mutation<R>): (r: Result<bool, Failure>)
    ensures resp.Mutation? && resp.success ==>
      r == Ok(resp.results.Some? && |resp.results.value| > 0 && resp.results.value[0].success == Some(true))
    ensures resp.Mutation? && !resp.success ==> r == Err(Rejected(resp.message))
    ensures resp.MutationThrew? ==> r == Err(Rejected(resp.message))
  {
    match resp
    case MutationThrew(m) => Err(Rejected(m))
    case Mutation(success, message, results) =>
      if !success then Err(Rejected(message))
      else Ok(results.Some? && |results.value| > 0 && results.value[0].success == Some(true))
  }
}
