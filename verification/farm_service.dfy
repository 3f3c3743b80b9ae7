/**
 * `farmService`: translation between the store's `farm_c` records and the Farm view record,
 * the payloads `create` and `update` send, and the error policy. Both directions read the clock;
 * `now` is a parameter.
 */
module FarmService {
  import opened Wrappers
  import opened Dates
  import opened Records
  import opened Backend

  /** A `farm_c` record as the store returns it. */
  datatype FarmRecord = FarmRecord(
    Id: nat, name_c: Option<string>, location_c: Option<string>, size_c: Option<int>,
    soil_type_c: Option<string>, created_at_c: Option<Date>, weather_summary_c: Option<string>)

  /** What a caller hands to `create`/`update`; `size` is `None` when it does not parse. */
  datatype FarmData = FarmData(
    name: string, location: string, size: Option<int>, soilType: string, weatherSummary: string)

  /** The record sent to the store; `created_at_c` is sent by `create` only. */
  datatype FarmWrite = FarmWrite(
    Id: Option<nat>, name_c: string, location_c: string, size_c: int, soil_type_c: string,
    created_at_c: Option<Date>, weather_summary_c: string)

  /** The mapping every read applies, at time `now`. */
  function Decode(r: FarmRecord, now: Date): (f: Farm)
    ensures f.Id == r.Id
    ensures f.name == (if r.name_c.Some? then r.name_c.value else "")
    ensures f.location == (if r.location_c.Some? then r.location_c.value else "")
    ensures f.size == (if r.size_c.Some? then r.size_c.value else 0)
    ensures f.soilType == (if r.soil_type_c.Some? then r.soil_type_c.value else "")
    ensures f.createdAt == (if r.created_at_c.Some? then r.created_at_c.value else now)
    ensures f.weatherSummary == Text(if r.weather_summary_c.Some? then r.weather_summary_c.value else "")
  {
    Farm(r.Id, Or(r.name_c, ""), Or(r.location_c, ""), OrZero(r.size_c), Or(r.soil_type_c, ""),
         r.created_at_c.GetOr(now), Text(Or(r.weather_summary_c, "")))
  }

  /** The record `create` sends at time `now`. */
  function CreateRequest(d: FarmData, now: Date): (w: FarmWrite)
    ensures w.Id.None? && w.created_at_c == Some(now)
    ensures w.name_c == d.name && w.location_c == d.location && w.weather_summary_c == d.weatherSummary
    ensures w.soil_type_c != "" && (d.soilType != "" ==> w.soil_type_c == d.soilType)
    ensures w.size_c == (if d.size.Some? then d.size.value else 0)
  {
    FarmWrite(None, d.name, d.location, OrZero(d.size), Or(Some(d.soilType), "loam"), Some(now), d.weatherSummary)
  }

  /** The record `update(id, d)` sends: never a creation time. */
  function UpdateRequest(id: nat, d: FarmData): (w: FarmWrite)
    ensures w.Id == Some(id) && w.created_at_c.None?
    ensures w.name_c == d.name && w.location_c == d.location && w.weather_summary_c == d.weatherSummary
    ensures w.soil_type_c != "" && (d.soilType != "" ==> w.soil_type_c == d.soilType)
    ensures w.size_c == (if d.size.Some? then d.size.value else 0)
  {
    FarmWrite(Some(id), d.name, d.location, OrZero(d.size), Or(Some(d.soilType), "loam"), None, d.weatherSummary)
  }

  /** `getAll`: every fetched record decoded, in order; `[]` when the read fails. */
  function GetAll(resp: Fetch<FarmRecord>, now: Date): (r: seq<Farm>)
    ensures resp.Fetched? && resp.success && resp.data.Some? ==>
      |r| == |resp.data.value| && forall i :: 0 <= i < |r| ==> r[i] == Decode(resp.data.value[i], now)
    ensures !(resp.Fetched? && resp.success && resp.data.Some?) ==> r == []
  {
    ReadAll(resp, r => Decode(r, now))
  }

  /** `getById(id)`: the decoded record; "Farm with ID <id> not found" when no record comes back. */
  function GetById(resp: Single<FarmRecord>, id: int, now: Date): (r: Result<Farm, Failure>)
    ensures resp.Single? && resp.data.Some? ==> r == Ok(Decode(resp.data.value, now))
    ensures resp.Single? && resp.data.None? ==> r == Err(NotFound("Farm", id))
    ensures resp.SingleThrew? ==> r == Err(Rejected(resp.message))
  {
    ReadOne(resp, "Farm", id, r => Decode(r, now))
  }

  /** `create(d)`, given the store's answer: the written record decoded, the store's message on a
      refusal, "Failed to create farm" when no record comes back. */
  function Create(resp: Mutation<FarmRecord>, now: Date): (r: Result<Farm, Failure>)
    ensures r.Ok? <==> resp.Mutation? && resp.success && FirstData(resp.results).Some?
    ensures r.Ok? ==> r.value == Decode(FirstData(resp.results).value, now)
    ensures !(resp.Mutation? && resp.success) ==> r == Err(Rejected(resp.message))
    ensures resp.Mutation? && resp.success && FirstData(resp.results).None? ==>
      r == Err(NothingReturned("Failed to create farm"))
  {
    ReadWritten(resp, r => Decode(r, now), "Failed to create farm")
  }

  /** `update(id, d)`, given the store's answer: as `create`, with "Failed to update farm". */
  function Update(resp: Mutation<FarmRecord>, now: Date): (r: Result<Farm, Failure>)
    ensures r.Ok? <==> resp.Mutation? && resp.success && FirstData(resp.results).Some?
    ensures r.Ok? ==> r.value == Decode(FirstData(resp.results).value, now)
    ensures !(resp.Mutation? && resp.success) ==> r == Err(Rejected(resp.message))
    ensures resp.Mutation? && resp.success && FirstData(resp.results).None? ==>
      r == Err(NothingReturned("Failed to update farm"))
  {
    ReadWritten(resp, r => Decode(r, now), "Failed to update farm")
  }

  /** `delete(id)`, given the store's answer: whether the first result reports success. */
  function Delete(resp: Mutation<FarmRecord>): (r: Result<bool, Failure>)
    ensures resp.Mutation? && resp.success ==>
      r == Ok(resp.results.Some? && |resp.results.value| > 0 && resp.results.value[0].success == Some(true))
    ensures !(resp.Mutation? && resp.success) ==> r == Err(Rejected(resp.message))
  {
    ReadDeleted(resp)
  }

  // ---- properties ----

  /** The store's answer to a write: the sent fields under the given Id; an update keeps the
      stored creation time. */
  function Stored(w: FarmWrite, id: nat, createdBefore: Option<Date>): FarmRecord {
    FarmRecord(id, Some(w.name_c), Some(w.location_c), Some(w.size_c), Some(w.soil_type_c),
               if w.created_at_c.Some? then w.created_at_c else createdBefore, Some(w.weather_summary_c))
  }

  /** An update sends what a creation sends, under the farm's `Id` and without a creation time. */
  lemma UpdateIsCreatePlusId(id: nat, d: FarmData, now: Date)
    ensures UpdateRequest(id, d) == CreateRequest(d, now).(Id := Some(id), created_at_c := None)
  {
  }

  /** A created farm reads back as entered: the same name, location and summary text, the
      size or 0, the soil type or "loam", and the creation time `create` stamped. */
  lemma CreateRoundTrip(d: FarmData, id: nat, now: Date, readAt: Date)
    ensures Decode(Stored(CreateRequest(d, now), id, None), readAt) ==
      Farm(id, d.name, d.location, if d.size.Some? then d.size.value else 0,
           if d.soilType == "" then "loam" else d.soilType, now, Text(d.weatherSummary))
  {
  }

  /** A created farm reads back with the creation time stamped by `create`, whenever it is read. */
  lemma CreateStampsTime(d: FarmData, id: nat, created: Date, readAt: Date)
    ensures Decode(Stored(CreateRequest(d, created), id, None), readAt).createdAt == created
  {
  }

  /** Soil type is asymmetric: an empty soil type is written as "loam" and reads back as
      "loam", while a record stored without one reads as "". */
  lemma SoilTypeDefaults(d: FarmData, id: nat, now: Date, r: FarmRecord)
    requires d.soilType == "" && r.soil_type_c.None?
    ensures Decode(Stored(CreateRequest(d, now), id, None), now).soilType == "loam"
    ensures Decode(r, now).soilType == ""
  {
  }

  /** An update leaves the creation time the store already holds. */
  lemma UpdateKeepsCreationTime(id: nat, d: FarmData, created: Date, now: Date)
    ensures Decode(Stored(UpdateRequest(id, d), id, Some(created)), now).createdAt == created
  {
  }
}
