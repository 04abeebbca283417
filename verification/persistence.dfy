/** The stored form of the ledger and the load step that migrates legacy
    records: the JSON text itself is not modelled, only the array of
    records it decodes to. */
module Persistence {
  import opened Wrappers
  import opened Transactions

  /** A record as it comes back from storage. Records written by older
      versions of the tracker carry no id; `None` stands for a missing
      (or null) id. */
  datatype StoredRecord = StoredRecord(
    id: Option<int>,
    date: string,
    description: string,
    category: string,
    amount: real,
    kind: string)

  /** JavaScript truthiness of a stored id: a missing id and the id 0 are
      both falsy. */
  predicate HasId(rec: StoredRecord)
  {
    rec.id.Some? && rec.id.value != 0
  }

  /** The records `saveToLocalStorage` writes: every in-memory record with
      its id. */
  function Save(ledger: Ledger): seq<StoredRecord>
  {
    seq(|ledger|, i requires 0 <= i < |ledger| =>
      var t := ledger[i];
      StoredRecord(Some(t.id), t.date, t.description, t.category, t.amount, t.kind))
  }

  /** One record of the load `map`: a truthy id is kept, a falsy one is
      replaced by `freshId`. */
  function Migrate(rec: StoredRecord, freshId: int): Transaction
  {
    Transaction(
      if HasId(rec) then rec.id.value else freshId,
      rec.date, rec.description, rec.category, rec.amount, rec.kind)
  }

  /** The stored record and the in-memory record agree on everything
      except, possibly, the id. */
  predicate SameFields(t: Transaction, rec: StoredRecord)
  {
    && t.date == rec.date
    && t.description == rec.description
    && t.category == rec.category
    && t.amount == rec.amount
    && t.kind == rec.kind
  }

  /** The id backfill of `loadFromLocalStorage`. `newId(i)` is the id the
      clock and the random source produce when the record at position
      `i` needs one. */
  function Backfill(stored: seq<StoredRecord>, newId: nat -> int): (r: Ledger)
    ensures |r| == |stored|
    ensures forall i :: 0 <= i < |r| ==> SameFields(r[i], stored[i])
    ensures forall i :: 0 <= i < |r| && HasId(stored[i]) ==> r[i].id == stored[i].id.value
    ensures forall i :: 0 <= i < |r| && !HasId(stored[i]) ==> r[i].id == newId(i)
    decreases |stored|
  {
    if stored == [] then []
    else Backfill(stored[..|stored| - 1], newId) + [Migrate(stored[|stored| - 1], newId(|stored| - 1))]
  }

  /** The whole load step. `None` stands for a missing key and for a
      stored value that parses to a falsy JSON value (`null`, `false`, `0`,
      `""`); `JSON.parse(...) || []` reads both as the empty ledger. */
  function Load(saved: Option<seq<StoredRecord>>, newId: nat -> int): (r: Ledger)
    ensures saved.None? ==> r == []
    ensures saved.Some? ==> |r| == |saved.value|
    ensures saved.Some? ==> forall i :: 0 <= i < |r| ==>
      && SameFields(r[i], saved.value[i])
      && r[i].id == (if HasId(saved.value[i]) then saved.value[i].id.value else newId(i))
  {
    match saved
    case None => []
    case Some(stored) => Backfill(stored, newId)
  }

  /** Saving a ledger whose ids are all truthy and loading it back gives
      the same ledger, whatever ids the clock would have offered. */
  lemma LoadAfterSave(ledger: Ledger, newId: nat -> int)
    requires forall i :: 0 <= i < |ledger| ==> ledger[i].id != 0
    ensures Load(Some(Save(ledger)), newId) == ledger
  {
  }

  /** A record whose stored id is 0 is treated like a legacy record and
      loses that id, so the round trip needs truthy ids. */
  lemma ZeroIdIsReplaced(t: Transaction, newId: nat -> int)
    requires t.id == 0 && newId(0) != 0
    ensures Load(Some(Save([t])), newId) != [t]
  {
  }

  /** When the clock only yields non-zero ids, the loaded ledger has
      truthy ids everywhere, so saving it and loading it again changes
      nothing. */
  lemma ReloadIsStable(stored: seq<StoredRecord>, newId: nat -> int, newId': nat -> int)
    requires forall i :: newId(i) != 0
    ensures forall i :: 0 <= i < |stored| ==> Backfill(stored, newId)[i].id != 0
    ensures Load(Some(Save(Backfill(stored, newId))), newId') == Backfill(stored, newId)
  {
    LoadAfterSave(Backfill(stored, newId), newId');
  }
}
