/**
 * `rotationService`: translation between the store's `crop_rotation_c` records and the Rotation
 * view record, the payloads `create` and `update` send, the year-range query, and the error policy.
 */
module RotationService {
  import opened Wrappers
  import opened Dates
  import opened Records
  import opened Backend
  import Text

  /** A rotation record as the store returns it. */
  datatype RotationRecord = RotationRecord(
    Id: nat, planned_date_c: Date, previous_crop_c: Option<string>, status_c: Option<string>,
    notes_c: Option<string>, farm_id_c: Option<Lookup>, crop_id_c: Option<Lookup>)

  /** What a caller hands to `create`/`update`. */
  datatype RotationData = RotationData(
    plannedDate: Date, previousCrop: string, status: string, notes: string, farmId: string, cropId: string)

  /** The record sent to the store; a `None` Id is `NaN`. */
  datatype RotationWrite = RotationWrite(
    Id: Option<nat>, planned_date_c: Date, previous_crop_c: string, status_c: string, notes_c: string,
    farm_id_c: Option<nat>, crop_id_c: Option<nat>)

  /** The mapping every read applies. The variety is always empty: the record has none. */
  function Decode(r: RotationRecord): (v: Rotation)
    ensures v.Id == r.Id && v.plannedDate == r.planned_date_c && v.variety == ""
    ensures v.previousCrop == (if r.previous_crop_c.Some? then r.previous_crop_c.value else "")
    ensures v.status == (if r.status_c.Some? then r.status_c.value else "")
    ensures v.notes == (if r.notes_c.Some? then r.notes_c.value else "")
    ensures r.farm_id_c.Some? && r.farm_id_c.value.Id.Some? ==> v.farmId == Text.IdText(r.farm_id_c.value.Id.value)
    ensures !(r.farm_id_c.Some? && r.farm_id_c.value.Id.Some?) ==> v.farmId == ""
    ensures r.farm_id_c.Some? && r.farm_id_c.value.Name.Some? && r.farm_id_c.value.Name.value != "" ==> v.farmName == r.farm_id_c.value.Name.value
    ensures !(r.farm_id_c.Some? && r.farm_id_c.value.Name.Some? && r.farm_id_c.value.Name.value != "") ==> v.farmName == "Unknown Farm"
    ensures r.crop_id_c.Some? && r.crop_id_c.value.Id.Some? ==> v.cropId == Text.IdText(r.crop_id_c.value.Id.value)
    ensures !(r.crop_id_c.Some? && r.crop_id_c.value.Id.Some?) ==> v.cropId == ""
    ensures r.crop_id_c.Some? && r.crop_id_c.value.Name.Some? && r.crop_id_c.value.Name.value != "" ==> v.cropName == r.crop_id_c.value.Name.value
    ensures !(r.crop_id_c.Some? && r.crop_id_c.value.Name.Some? && r.crop_id_c.value.Name.value != "") ==> v.cropName == "Unknown Crop"
  {
    Rotation(r.Id, r.planned_date_c, Or(r.previous_crop_c, ""), Or(r.status_c, ""), Or(r.notes_c, ""),
             IdTextOr(r.farm_id_c), NameOr(r.farm_id_c, "Unknown Farm"),
             IdTextOr(r.crop_id_c), NameOr(r.crop_id_c, "Unknown Crop"), "")
  }

  /** The record `create` sends: farm and crop as integers. */
  function CreateRequest(d: RotationData): (w: RotationWrite)
    ensures w.Id.None?
    ensures w.farm_id_c == Text.ParseInt(d.farmId) && w.crop_id_c == Text.ParseInt(d.cropId)
  {
    RotationWrite(None, d.plannedDate, d.previousCrop, d.status, d.notes, Text.ParseInt(d.farmId), Text.ParseInt(d.cropId))
  }

  /** The record `update(id, d)` sends. */
  function UpdateRequest(id: nat, d: RotationData): (w: RotationWrite)
    ensures w.Id == Some(id)
  {
    RotationWrite(Some(id), d.plannedDate, d.previousCrop, d.status, d.notes, Text.ParseInt(d.farmId), Text.ParseInt(d.cropId))
  }

  /** `getAll` / `getByFarmId` / `getByYear`: every fetched record decoded, in order; `[]` when the read fails. */
  function GetAll(resp: Fetch<RotationRecord>): (r: seq<Rotation>)
    ensures resp.Fetched? && resp.success && resp.data.Some? ==>
      |r| == |resp.data.value| && forall i :: 0 <= i < |r| ==> r[i] == Decode(resp.data.value[i])
    ensures !(resp.Fetched? && resp.success && resp.data.Some?) ==> r == []
  {
    ReadAll(resp, Decode)
  }

  /** `getById(id)`: the decoded record; "Rotation with ID <id> not found" when no record comes back. */
  function GetById(resp: Single<RotationRecord>, id: int): (r: Result<Rotation, Failure>)
    ensures resp.Single? && resp.data.Some? ==> r == Ok(Decode(resp.data.value))
    ensures resp.Single? && resp.data.None? ==> r == Err(NotFound("Rotation", id))
    ensures resp.SingleThrew? ==> r == Err(Rejected(resp.message))
  {
    ReadOne(resp, "Rotation", id, Decode)
  }

  /** `create(d)`, given the store's answer: the written record decoded, the store's message on a
      refusal, "Failed to create rotation" when no record comes back. */
  function Create(resp: Mutation<RotationRecord>): (r: Result<Rotation, Failure>)
    ensures r.Ok? <==> resp.Mutation? && resp.success && FirstData(resp.results).Some?
    ensures r.Ok? ==> r.value == Decode(FirstData(resp.results).value)
    ensures !(resp.Mutation? && resp.success) ==> r == Err(Rejected(resp.message))
    ensures resp.Mutation? && resp.success && FirstData(resp.results).None? ==>
      r == Err(NothingReturned("Failed to create rotation"))
  {
    ReadWritten(resp, Decode, "Failed to create rotation")
  }

  /** `update(id, d)`, given the store's answer: as `create`, with "Failed to update rotation". */
  function Update(resp: Mutation<RotationRecord>): (r: Result<Rotation, Failure>)
    ensures r.Ok? <==> resp.Mutation? && resp.success && FirstData(resp.results).Some?
    ensures r.Ok? ==> r.value == Decode(FirstData(resp.results).value)
    ensures !(resp.Mutation? && resp.success) ==> r == Err(Rejected(resp.message))
    ensures resp.Mutation? && resp.success && FirstData(resp.results).None? ==>
      r == Err(NothingReturned("Failed to update rotation"))
  {
    ReadWritten(resp, Decode, "Failed to update rotation")
  }

  /** `delete(id)`, given the store's answer: whether the first result reports success. */
  function Delete(resp: Mutation<RotationRecord>): (r: Result<bool, Failure>)
    ensures resp.Mutation? && resp.success ==>
      r == Ok(resp.results.Some? && |resp.results.value| > 0 && resp.results.value[0].success == Some(true))
    ensures !(resp.Mutation? && resp.success) ==> r == Err(Rejected(resp.message))
  {
    ReadDeleted(resp)
  }

  /** The bounds `getByYear(year)` asks for: from `year-01-01` to `year-12-31`, both included. */
  function YearStart(year: int): Date { Date(year, 0, 1, 0) }
  function YearEnd(year: int): Date { Date(year, 11, 31, 0) }

  /** Whether the store's query selects a planned date: on or after the first bound and on or
      before the second, compared as calendar days. */
  predicate InYearRange(d: Date, year: int) {
    DayNotAfter(YearStart(year), d) && DayNotAfter(d, YearEnd(year))
  }

  /** The range is exactly the valid dates of that year. */
  lemma YearRangeIsYear(d: Date, year: int)
    requires Valid(d)
    ensures InYearRange(d, year) <==> d.year == year
  {
  }

  /** What `getByYear(year)` asks the store for. */
  predicate AnswersByYear(answer: seq<RotationRecord>, year: int) {
    forall i :: 0 <= i < |answer| ==> InYearRange(answer[i].planned_date_c, year)
  }

  // ---- properties ----

  /** `update` sends exactly the fields `create` sends, plus the `Id`. */
  lemma UpdateIsCreatePlusId(id: nat, d: RotationData)
    ensures UpdateRequest(id, d) == CreateRequest(d).(Id := Some(id))
  {
  }

  /** The store's answer to a write: the sent fields under the given Id, lookups resolved. */
  function Stored(w: RotationWrite, id: nat, farm: Lookup, crop: Lookup): RotationRecord {
    RotationRecord(id, w.planned_date_c, Some(w.previous_crop_c), Some(w.status_c), Some(w.notes_c),
                   if w.farm_id_c.Some? then Some(farm.(Id := w.farm_id_c)) else None,
                   if w.crop_id_c.Some? then Some(crop.(Id := w.crop_id_c)) else None)
  }

  /** A created rotation reads back as entered, farm and crop Ids included. */
  lemma {:induction false} CreateRoundTrip(d: RotationData, id: nat, farm: Lookup, crop: Lookup, farmId: nat, cropId: nat)
    requires d.farmId == Text.IdText(farmId) && d.cropId == Text.IdText(cropId)
    ensures var v := Decode(Stored(CreateRequest(d), id, farm, crop));
      && v.Id == id && v.plannedDate == d.plannedDate && v.previousCrop == d.previousCrop
      && v.status == d.status && v.notes == d.notes && v.farmId == d.farmId && v.cropId == d.cropId
  {
    Text.IdTextRoundTrip(farmId);
    Text.IdTextRoundTrip(cropId);
  }

  /** Every rotation `getByYear(year)` returns is planned in that year, when the store answers the
      query it was asked and holds valid dates. */
  lemma {:induction false} ByYearInYear(resp: Fetch<RotationRecord>, year: int)
    requires resp.Fetched? && resp.data.Some? ==>
      AnswersByYear(resp.data.value, year) && forall r <- resp.data.value :: Valid(r.planned_date_c)
    ensures forall v <- GetAll(resp) :: v.plannedDate.year == year
  {
    forall v <- GetAll(resp) ensures v.plannedDate.year == year {
      var i :| 0 <= i < |GetAll(resp)| && GetAll(resp)[i] == v;
      YearRangeIsYear(resp.data.value[i].planned_date_c, year);
    }
  }
}
