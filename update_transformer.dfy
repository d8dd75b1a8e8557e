/** updateTransformer of app/actions/update-transformer.ts: rewrite the four descriptive fields
    of one stored unit. */
module UpdateTransformer {
  import opened Model
  import opened Store

  /** The edit form. Capacity, model and note are nullable (`None` is stored as null). */
  datatype UnitEdit = UnitEdit(
    id: Id, serialNumber: string, capacity: Option<string>, model: Option<string>, note: Option<string>)

  /** The form's schema: only the serial number must be non-empty. */
  predicate ValidEdit(e: UnitEdit)
  {
    |e.serialNumber| >= 1
  }

  /** The unit after the edit: serial, capacity, model and note from the form; everything else
      (owner, test result, processed flag, image, creation time) as it was. */
  function Edited(t: Transformer, e: UnitEdit): (t': Transformer)
    ensures t'.id == t.id && t'.dispatchId == t.dispatchId
    ensures t'.testResult == t.testResult && t'.isProcessed == t.isProcessed
    ensures t'.imageUrl == t.imageUrl && t'.createdAt == t.createdAt
    ensures t'.serialNumber == e.serialNumber && t'.capacity == e.capacity
    ensures t'.model == e.model && t'.note == e.note
  {
    t.(serialNumber := e.serialNumber, capacity := e.capacity, model := e.model, note := e.note)
  }

  /** The store after `transformer.update({ where: { id }, data })`. */
  function ApplyEdit(db: Db, e: UnitEdit): Db
  {
    UpdateUnitsWhere(db, (t: Transformer) => t.id == e.id, (t: Transformer) => Edited(t, e))
  }

  /** The edit touches exactly the unit with the id: it is replaced by its edited copy, in
      place, and every other unit and every dispatch stays as it was. */
  lemma ApplyEditTouchesOnlyThatUnit(db: Db, e: UnitEdit, i: nat)
    requires i < |db.transformers|
    ensures ApplyEdit(db, e).dispatches == db.dispatches
    ensures |ApplyEdit(db, e).transformers| == |db.transformers|
    ensures db.transformers[i].id == e.id ==> ApplyEdit(db, e).transformers[i] == Edited(db.transformers[i], e)
    ensures db.transformers[i].id != e.id ==> ApplyEdit(db, e).transformers[i] == db.transformers[i]
  {
  }

  /** Applying the same edit twice leaves the store as one application does. */
  lemma ApplyEditIdempotent(db: Db, e: UnitEdit)
    ensures ApplyEdit(ApplyEdit(db, e), e) == ApplyEdit(db, e)
  {
    var once := ApplyEdit(db, e);
    var twice := ApplyEdit(once, e);
    assert twice.transformers == once.transformers by {
      forall i | 0 <= i < |once.transformers| ensures twice.transformers[i] == once.transformers[i] {
        ApplyEditTouchesOnlyThatUnit(db, e, i);
        ApplyEditTouchesOnlyThatUnit(once, e, i);
      }
    }
  }

  /** updateTransformer. An empty serial is rejected before any write; an id no unit has, or a
      storage fault (`storageFails`), makes the update throw; all three leave the store unchanged. */
  method Update(store: Store, e: UnitEdit, storageFails: bool) returns (o: Outcome)
    requires store.Valid()
    modifies store
    ensures store.Valid() && store.nextId == old(store.nextId)
    ensures !ValidEdit(e) ==> o == Failed(InvalidInput) && store.db == old(store.db)
    ensures ValidEdit(e) && (storageFails || e.id !in TransformerIds(old(store.db))) ==>
      o == Failed(StorageError) && store.db == old(store.db)
    ensures ValidEdit(e) && !storageFails && e.id in TransformerIds(old(store.db)) ==>
      o == Success && store.db == ApplyEdit(old(store.db), e)
  {
    if |e.serialNumber| < 1 {
      return Failed(InvalidInput);
    }
    if storageFails || e.id !in TransformerIds(store.db) {
      return Failed(StorageError);
    }
    UpdateUnitsWhereKeepsValid(store.db, (t: Transformer) => t.id == e.id, (t: Transformer) => Edited(t, e), store.nextId);
    store.db := ApplyEdit(store.db, e);
    o := Success;
  }
}
