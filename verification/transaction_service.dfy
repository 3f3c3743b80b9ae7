/**
 * `transactionService`: translation between the store's `transaction_c` records and the
 * Transaction view record, the payloads `create` and `update` send, and the error policy.
 */
module TransactionService {
  import opened Wrappers
  import opened Dates
  import opened Records
  import opened Backend
  import Text

  /** A `transaction_c` record as the store returns it (`type_c` is the `type` field). */
  datatype TransactionRecord = TransactionRecord(
    Id: nat, type_c: Option<string>, category_c: Option<string>, amount_c: Option<int>,
    description_c: Option<string>, date_c: Date, farm_id_c: Option<Lookup>)

  /** What a caller hands to `create`/`update`; `amount` is `None` when it does not parse. */
  datatype TransactionData = TransactionData(
    kind: string, category: string, amount: Option<int>, description: string, date: Date, farmId: string)

  /** The record sent to the store. */
  datatype TransactionWrite = TransactionWrite(
    Id: Option<nat>, type_c: string, category_c: string, amount_c: int, description_c: string,
    date_c: Date, farm_id_c: Option<nat>)

  /** The mapping every read applies. */
  function Decode(r: TransactionRecord): (t: Transaction)
    ensures t.Id == r.Id && t.date == r.date_c
    ensures r.type_c.None? || r.type_c == Some("") ==> t.kind == "expense"
    ensures r.type_c.Some? && r.type_c.value != "" ==> t.kind == r.type_c.value
    ensures t.category == (if r.category_c.Some? then r.category_c.value else "")
    ensures t.amount == (if r.amount_c.Some? then r.amount_c.value else 0)
    ensures t.description == (if r.description_c.Some? then r.description_c.value else "")
    ensures r.farm_id_c.Some? && r.farm_id_c.value.Id.Some? ==> t.farmId == Text.IdText(r.farm_id_c.value.Id.value)
    ensures !(r.farm_id_c.Some? && r.farm_id_c.value.Id.Some?) ==> t.farmId == ""
    ensures r.farm_id_c.Some? && r.farm_id_c.value.Name.Some? && r.farm_id_c.value.Name.value != "" ==> t.farmName == r.farm_id_c.value.Name.value
    ensures !(r.farm_id_c.Some? && r.farm_id_c.value.Name.Some? && r.farm_id_c.value.Name.value != "") ==> t.farmName == "Unknown Farm"
  {
    Transaction(r.Id, Or(r.type_c, "expense"), Or(r.category_c, ""), OrZero(r.amount_c),
                Or(r.description_c, ""), r.date_c, IdTextOr(r.farm_id_c), NameOr(r.farm_id_c, "Unknown Farm"))
  }

  /** The record `create` sends. */
  function CreateRequest(d: TransactionData): (w: TransactionWrite)
    ensures w.Id.None?
    ensures w.type_c != "" && (d.kind != "" ==> w.type_c == d.kind)
    ensures w.amount_c == (if d.amount.Some? then d.amount.value else 0)
    ensures w.farm_id_c == Text.ParseInt(d.farmId)
  {
    TransactionWrite(None, Or(Some(d.kind), "expense"), d.category, OrZero(d.amount), d.description,
                     d.date, Text.ParseInt(d.farmId))
  }

  /** The record `update(id, d)` sends. */
  function UpdateRequest(id: nat, d: TransactionData): (w: TransactionWrite)
    ensures w.Id == Some(id)
  {
    TransactionWrite(Some(id), Or(Some(d.kind), "expense"), d.category, OrZero(d.amount), d.description,
                     d.date, Text.ParseInt(d.farmId))
  }

  /** `getAll` / `getByFarmId`: every fetched record decoded, in order; `[]` when the read fails. */
  function GetAll(resp: Fetch<TransactionRecord>): (r: seq<Transaction>)
    ensures resp.Fetched? && resp.success && resp.data.Some? ==>
      |r| == |resp.data.value| && forall i :: 0 <= i < |r| ==> r[i] == Decode(resp.data.value[i])
    ensures !(resp.Fetched? && resp.success && resp.data.Some?) ==> r == []
  {
    ReadAll(resp, Decode)
  }

  /** `getById(id)`: the decoded record; "Transaction with ID <id> not found" when no record comes back. */
  function GetById(resp: Single<TransactionRecord>, id: int): (r: Result<Transaction, Failure>)
    ensures resp.Single? && resp.data.Some? ==> r == Ok(Decode(resp.data.value))
    ensures resp.Single? && resp.data.None? ==> r == Err(NotFound("Transaction", id))
    ensures resp.SingleThrew? ==> r == Err(Rejected(resp.message))
  {
    ReadOne(resp, "Transaction", id, Decode)
  }

  /** `create(d)`, given the store's answer: the written record decoded, the store's message on a
      refusal, "Failed to create transaction" when no record comes back. */
  function Create(resp: Mutation<TransactionRecord>): (r: Result<Transaction, Failure>)
    ensures r.Ok? <==> resp.Mutation? && resp.success && FirstData(resp.results).Some?
    ensures r.Ok? ==> r.value == Decode(FirstData(resp.results).value)
    ensures !(resp.Mutation? && resp.success) ==> r == Err(Rejected(resp.message))
    ensures resp.Mutation? && resp.success && FirstData(resp.results).None? ==>
      r == Err(NothingReturned("Failed to create transaction"))
  {
    ReadWritten(resp, Decode, "Failed to create transaction")
  }

  /** `update(id, d)`, given the store's answer: as `create`, with "Failed to update transaction". */
  function Update(resp: Mutation<TransactionRecord>): (r: Result<Transaction, Failure>)
    ensures r.Ok? <==> resp.Mutation? && resp.success && FirstData(resp.results).Some?
    ensures r.Ok? ==> r.value == Decode(FirstData(resp.results).value)
    ensures !(resp.Mutation? && resp.success) ==> r == Err(Rejected(resp.message))
    ensures resp.Mutation? && resp.success && FirstData(resp.results).None? ==>
      r == Err(NothingReturned("Failed to update transaction"))
  {
    ReadWritten(resp, Decode, "Failed to update transaction")
  }

  /** `delete(id)`, given the store's answer: whether the first result reports success. */
  function Delete(resp: Mutation<TransactionRecord>): (r: Result<bool, Failure>)
    ensures resp.Mutation? && resp.success ==>
      r == Ok(resp.results.Some? && |resp.results.value| > 0 && resp.results.value[0].success == Some(true))
    ensures !(resp.Mutation? && resp.success) ==> r == Err(Rejected(resp.message))
  {
    ReadDeleted(resp)
  }

  // ---- properties ----

  /** `update` sends exactly the fields `create` sends, plus the `Id`. */
  lemma UpdateIsCreatePlusId(id: nat, d: TransactionData)
    ensures UpdateRequest(id, d) == CreateRequest(d).(Id := Some(id))
  {
  }

  /** The store's answer to a write: the sent fields under the given Id, the farm lookup resolved. */
  function Stored(w: TransactionWrite, id: nat, farm: Lookup): TransactionRecord {
    TransactionRecord(id, Some(w.type_c), Some(w.category_c), Some(w.amount_c), Some(w.description_c),
                      w.date_c, if w.farm_id_c.Some? then Some(farm.(Id := w.farm_id_c)) else None)
  }

  /** A created transaction reads back as entered, with an empty type as "expense" and a
      non-numeric amount as 0. */
  lemma {:induction false} CreateRoundTrip(d: TransactionData, id: nat, farm: Lookup, farmId: nat)
    requires d.farmId == Text.IdText(farmId)
    ensures var t := Decode(Stored(CreateRequest(d), id, farm));
      && t.Id == id && t.category == d.category && t.description == d.description && t.date == d.date
      && t.kind == (if d.kind == "" then "expense" else d.kind)
      && t.amount == (if d.amount.Some? then d.amount.value else 0)
      && t.farmId == d.farmId
  {
    Text.IdTextRoundTrip(farmId);
  }

  /** `delete` reports true only when the backend accepted and its first result says so; a missing
      result reads as false. */
  lemma DeleteResult(resp: Mutation<TransactionRecord>)
    ensures Delete(resp) == Ok(true) <==>
      resp.Mutation? && resp.success && resp.results.Some? && |resp.results.value| > 0
      && resp.results.value[0].success == Some(true)
    ensures resp.Mutation? && resp.success && (resp.results.None? || resp.results.value == []) ==>
      Delete(resp) == Ok(false)
  {
  }
}
