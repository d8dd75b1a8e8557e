/** createExportDispatch of app/actions/export-dispatch.ts: validate the export form, then insert
    one EXPORT dispatch together with its units. */
module ExportDispatch {
  import opened Model
  import opened Store

  /** The export form. `unit` is accepted by the schema but never stored. A non-empty
      `sourceDispatchId` that names no dispatch is still sent to the store. */
  datatype ExportForm = ExportForm(
    dispatchNumber: string, date: string, transactionDate: Option<string>,
    documentType: Option<DocumentType>, isCBM: Option<bool>, unit: Option<string>,
    transformers: seq<UnitInput>, sourceDispatchId: Option<Id>)

  /** The form's schema: non-empty number and date, and valid unit rows. */
  predicate ValidExportForm(f: ExportForm)
  {
    |f.dispatchNumber| >= 1 && |f.date| >= 1 && ValidRows(f.transformers)
  }

  /** The store accepts the insert: no storage fault, both dates are valid (`parse` stands for
      `new Date`, `None` for an invalid date), and the source dispatch, if any, exists. */
  predicate ExportWritable(db: Db, f: ExportForm, parse: string -> Option<int>, storageFails: bool)
  {
    && !storageFails
    && parse(f.date).Some?
    && (Truthy(f.transactionDate) ==> parse(f.transactionDate.value).Some?)
    && RefOk(db, f.sourceDispatchId)
  }

  /** The inserted row, before the store gives it its id. An empty transaction date is left
      out (stored as null). */
  function ExportRow(f: ExportForm, parse: string -> Option<int>, now: int): Dispatch
    requires parse(f.date).Some?
    requires Truthy(f.transactionDate) ==> parse(f.transactionDate.value).Some?
  {
    Dispatch(0, Some(f.dispatchNumber), "", Export, DocumentTypeOr(f.documentType), FlagOr(f.isCBM),
             parse(f.date).value,
             if Truthy(f.transactionDate) then parse(f.transactionDate.value) else None,
             None, f.sourceDispatchId, None, now)
  }

  /** The store after the insert: the row with id `id`, owning one fresh unit per form row. */
  function Exported(db: Db, f: ExportForm, parse: string -> Option<int>, now: int, id: Id): Db
    requires parse(f.date).Some?
    requires Truthy(f.transactionDate) ==> parse(f.transactionDate.value).Some?
  {
    InsertDispatch(db, ExportRow(f, parse, now).(id := id), NewUnits(f.transformers, id, id + 1, now, false))
  }

  /** The insert adds one EXPORT dispatch, with no file and the form's number, date, kind,
      flag and source, owning one unit per row in order (no lab data). */
  lemma ExportedRow(db: Db, f: ExportForm, parse: string -> Option<int>, now: int, id: Id)
    requires WellFormed(db) && IdsBelow(db, id) && ExportWritable(db, f, parse, false)
    ensures var r := Exported(db, f, parse, now, id);
      var d := FindDispatch(r, id);
      && d.Some? && d.value.dispatchType == Export && d.value.fileUrl == ""
      && d.value.dispatchNumber == Some(f.dispatchNumber) && d.value.date == parse(f.date).value
      && d.value.documentType == DocumentTypeOr(f.documentType) && d.value.isCBM == FlagOr(f.isCBM)
      && d.value.sourceDispatchId == f.sourceDispatchId
      && |UnitsOf(r, id)| == |f.transformers|
      && (forall i :: 0 <= i < |f.transformers| ==> CopiesRow(UnitsOf(r, id)[i], f.transformers[i], false))
  {
    var d := ExportRow(f, parse, now).(id := id);
    var us := NewUnits(f.transformers, id, id + 1, now, false);
    InsertFresh(db, d, us, id);
  }

  /** Nothing else changes: the store stays well-formed, gains exactly the id `id`, and every
      other dispatch keeps its units. */
  lemma ExportedKeepsOthers(db: Db, f: ExportForm, parse: string -> Option<int>, now: int, id: Id)
    requires WellFormed(db) && IdsBelow(db, id) && ExportWritable(db, f, parse, false)
    ensures var r := Exported(db, f, parse, now, id);
      && WellFormed(r) && IdsBelow(r, id + |f.transformers| + 1)
      && DispatchIds(r) == DispatchIds(db) + {id}
      && forall k :: k != id ==> UnitsOf(r, k) == UnitsOf(db, k)
  {
    var d := ExportRow(f, parse, now).(id := id);
    assert d.linkedCvId == None && d.sourceDispatchId == f.sourceDispatchId;
    InsertFresh(db, d, NewUnits(f.transformers, id, id + 1, now, false), id);
  }

  /** createExportDispatch. A form that fails the schema, or a store that rejects the insert,
      leaves the store unchanged; otherwise the store becomes `Exported` (see `ExportedRow` and `ExportedKeepsOthers`)
      and the next `|f.transformers| + 1` ids are used. */
  method CreateExportDispatch(store: Store, f: ExportForm, parse: string -> Option<int>, now: int, storageFails: bool)
    returns (o: Outcome)
    requires store.Valid()
    modifies store
    ensures store.Valid()
    ensures !ValidExportForm(f) ==>
      o == Failed(InvalidInput) && store.db == old(store.db) && store.nextId == old(store.nextId)
    ensures ValidExportForm(f) && !ExportWritable(old(store.db), f, parse, storageFails) ==>
      o == Failed(StorageError) && store.db == old(store.db) && store.nextId == old(store.nextId)
    ensures ValidExportForm(f) && ExportWritable(old(store.db), f, parse, storageFails) ==>
      && o == Success
      && store.db == Exported(old(store.db), f, parse, now, old(store.nextId))
      && store.nextId == old(store.nextId) + |f.transformers| + 1
  {
    if !ValidExportForm(f) {
      return Failed(InvalidInput);
    }
    if !ExportWritable(store.db, f, parse, storageFails) {
      return Failed(StorageError);
    }
    var id := store.CreateWithUnits(ExportRow(f, parse, now), f.transformers, now, false);
    o := Success;
  }
}
