/**
 * `cropService`: translation between the store's `crop_c` records and the Crop view record,
 * the payloads `create` and `update` send, and the error policy of each call.
 */
module CropService {
  import opened Wrappers
  import opened Dates
  import opened Records
  import opened Backend
  import Text

  /** A `crop_c` record as the store returns it. */
  datatype CropRecord = CropRecord(
    Id: nat, name_c: Option<string>, variety_c: Option<string>, planting_date_c: Date,
    expected_harvest_c: Date, area_c: Option<int>, status_c: Option<string>, farm_id_c: Option<Lookup>)

  /** What a caller hands to `create`/`update`; `area` is `None` when it does not parse as a number. */
  datatype CropData = CropData(
    name: string, variety: string, plantingDate: Date, expectedHarvest: Date,
    area: Option<int>, status: string, farmId: string)

  /** The record sent to the store; a `None` farm is `NaN`. */
  datatype CropWrite = CropWrite(
    Id: Option<nat>, name_c: string, variety_c: string, planting_date_c: Date,
    expected_harvest_c: Date, area_c: int, status_c: string, farm_id_c: Option<nat>)

  /** The mapping every read applies. */
  function Decode(r: CropRecord): (c: Crop)
    ensures c.Id == r.Id && c.plantingDate == r.planting_date_c && c.expectedHarvest == r.expected_harvest_c
    ensures c.name == (if r.name_c.Some? then r.name_c.value else "")
    ensures c.variety == (if r.variety_c.Some? then r.variety_c.value else "")
    ensures c.area == (if r.area_c.Some? then r.area_c.value else 0)
    ensures r.status_c.None? || r.status_c == Some("") ==> c.status == "planted"
    ensures r.status_c.Some? && r.status_c.value != "" ==> c.status == r.status_c.value
    ensures r.farm_id_c.Some? && r.farm_id_c.value.Id.Some? ==> c.farmId == Text.IdText(r.farm_id_c.value.Id.value)
    ensures !(r.farm_id_c.Some? && r.farm_id_c.value.Id.Some?) ==> c.farmId == ""
    ensures r.farm_id_c.Some? && r.farm_id_c.value.Name.Some? && r.farm_id_c.value.Name.value != "" ==> c.farmName == r.farm_id_c.value.Name.value
    ensures !(r.farm_id_c.Some? && r.farm_id_c.value.Name.Some? && r.farm_id_c.value.Name.value != "") ==> c.farmName == "Unknown Farm"
  {
    Crop(r.Id, Or(r.name_c, ""), Or(r.variety_c, ""), r.planting_date_c, r.expected_harvest_c,
         OrZero(r.area_c), Or(r.status_c, "planted"), IdTextOr(r.farm_id_c), NameOr(r.farm_id_c, "Unknown Farm"))
  }

  /** The record `create` sends. */
  function CreateRequest(d: CropData): (w: CropWrite)
    ensures w.Id.None?
    ensures w.area_c == (if d.area.Some? then d.area.value else 0)
    ensures w.status_c != "" && (d.status != "" ==> w.status_c == d.status)
    ensures w.farm_id_c == Text.ParseInt(d.farmId)
  {
    CropWrite(None, d.name, d.variety, d.plantingDate, d.expectedHarvest, OrZero(d.area),
              Or(Some(d.status), "planted"), Text.ParseInt(d.farmId))
  }

  /** The record `update(id, d)` sends. */
  function UpdateRequest(id: nat, d: CropData): (w: CropWrite)
    ensures w.Id == Some(id)
  {
    CropWrite(Some(id), d.name, d.variety, d.plantingDate, d.expectedHarvest, OrZero(d.area),
              Or(Some(d.status), "planted"), Text.ParseInt(d.farmId))
  }

  /** `getAll` / `getByFarmId`: every fetched record decoded, in order; `[]` when the read fails. */
  function GetAll(resp: Fetch<CropRecord>): (r: seq<Crop>)
    ensures resp.Fetched? && resp.success && resp.data.Some? ==>
      |r| == |resp.data.value| && forall i :: 0 <= i < |r| ==> r[i] == Decode(resp.data.value[i])
    ensures !(resp.Fetched? && resp.success && resp.data.Some?) ==> r == []
  {
    ReadAll(resp, Decode)
  }

  /** `getById(id)`: the decoded record; "Crop with ID <id> not found" when no record comes back. */
  function GetById(resp: Single<CropRecord>, id: int): (r: Result<Crop, Failure>)
    ensures resp.Single? && resp.data.Some? ==> r == Ok(Decode(resp.data.value))
    ensures resp.Single? && resp.data.None? ==> r == Err(NotFound("Crop", id))
    ensures resp.SingleThrew? ==> r == Err(Rejected(resp.message))
  {
    ReadOne(resp, "Crop", id, Decode)
  }

  /** `create(d)`, given the store's answer: the written record decoded, the store's message on a
      refusal, "Failed to create crop" when no record comes back. */
  function Create(resp: Mutation<CropRecord>): (r: Result<Crop, Failure>)
    ensures r.Ok? <==> resp.Mutation? && resp.success && FirstData(resp.results).Some?
    ensures r.Ok? ==> r.value == Decode(FirstData(resp.results).value)
    ensures !(resp.Mutation? && resp.success) ==> r == Err(Rejected(resp.message))
    ensures resp.Mutation? && resp.success && FirstData(resp.results).None? ==>
      r == Err(NothingReturned("Failed to create crop"))
  {
    ReadWritten(resp, Decode, "Failed to create crop")
  }

  /** `update(id, d)`, given the store's answer: as `create`, with "Failed to update crop". */
  function Update(resp: Mutation<CropRecord>): (r: Result<Crop, Failure>)
    ensures r.Ok? <==> resp.Mutation? && resp.success && FirstData(resp.results).Some?
    ensures r.Ok? ==> r.value == Decode(FirstData(resp.results).value)
    ensures !(resp.Mutation? && resp.success) ==> r == Err(Rejected(resp.message))
    ensures resp.Mutation? && resp.success && FirstData(resp.results).None? ==>
      r == Err(NothingReturned("Failed to update crop"))
  {
    ReadWritten(resp, Decode, "Failed to update crop")
  }

  /** `delete(id)`, given the store's answer: whether the first result reports success. */
  function Delete(resp: Mutation<CropRecord>): (r: Result<bool, Failure>)
    ensures resp.Mutation? && resp.success ==>
      r == Ok(resp.results.Some? && |resp.results.value| > 0 && resp.results.value[0].success == Some(true))
    ensures !(resp.Mutation? && resp.success) ==> r == Err(Rejected(resp.message))
  {
    ReadDeleted(resp)
  }

  /** What `getByFarmId(farmId)` asks the store for: the crops whose farm lookup has that Id. */
  predicate AnswersByFarm(answer: seq<CropRecord>, farm: nat) {
    forall i :: 0 <= i < |answer| ==> answer[i].farm_id_c.Some? && answer[i].farm_id_c.value.Id == Some(farm)
  }

  // ---- properties ----

  /** `update` sends exactly the fields `create` sends, plus the `Id`. */
  lemma UpdateIsCreatePlusId(id: nat, d: CropData)
    ensures UpdateRequest(id, d) == CreateRequest(d).(Id := Some(id))
  {
  }

  /** The store's answer to a write: the sent fields under the given Id, the farm lookup resolved. */
  function Stored(w: CropWrite, id: nat, farm: Lookup): CropRecord {
    CropRecord(id, Some(w.name_c), Some(w.variety_c), w.planting_date_c, w.expected_harvest_c,
               Some(w.area_c), Some(w.status_c), if w.farm_id_c.Some? then Some(farm.(Id := w.farm_id_c)) else None)
  }

  /** A created crop reads back as entered: name, variety, dates and farm Id unchanged, a
      non-numeric area as 0, an empty status as "planted". */
  lemma {:induction false} CreateRoundTrip(d: CropData, id: nat, farm: Lookup, farmId: nat)
    requires d.farmId == Text.IdText(farmId)
    ensures var c := Decode(Stored(CreateRequest(d), id, farm));
      && c.Id == id && c.name == d.name && c.variety == d.variety
      && c.plantingDate == d.plantingDate && c.expectedHarvest == d.expectedHarvest
      && c.area == (if d.area.Some? then d.area.value else 0)
      && c.status == (if d.status == "" then "planted" else d.status)
      && c.farmId == d.farmId
  {
    Text.IdTextRoundTrip(farmId);
  }

  /** Every crop `getByFarmId(Id text of farm)` returns belongs to that farm. */
  lemma ByFarmBelongs(resp: Fetch<CropRecord>, farm: nat)
    requires resp.Fetched? && resp.data.Some? ==> AnswersByFarm(resp.data.value, farm)
    ensures forall c <- GetAll(resp) :: c.farmId == Text.IdText(farm)
  {
  }
}
