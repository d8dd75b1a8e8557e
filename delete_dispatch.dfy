/** deleteDispatch of app/actions/delete-dispatch.ts. The action issues one `dispatch.delete`;
    what else disappears is decided by the schema's referential actions, written out here: the
    dispatch's units are deleted with it (cascade), and a `linkedCvId` or `sourceDispatchId`
    that named it becomes null (the default for an optional relation). */
module DeleteDispatch {
  import opened Seqs
  import opened Model
  import opened Store

  /** A reference to the deleted dispatch becomes null; any other is kept. */
  function Unref(r: Option<Id>, id: Id): (r': Option<Id>)
    ensures r' != Some(id)
    ensures r != Some(id) ==> r' == r
  {
    if r == Some(id) then None else r
  }

  /** A surviving dispatch after `id` is deleted: only its references to `id` change. */
  function Detach(d: Dispatch, id: Id): (d': Dispatch)
    ensures d' == d.(linkedCvId := d'.linkedCvId, sourceDispatchId := d'.sourceDispatchId)
    ensures d'.linkedCvId == Unref(d.linkedCvId, id) && d'.sourceDispatchId == Unref(d.sourceDispatchId, id)
  {
    d.(linkedCvId := Unref(d.linkedCvId, id), sourceDispatchId := Unref(d.sourceDispatchId, id))
  }

  /** The store after `dispatch.delete({ where: { id } })` succeeds. */
  function DeleteCascade(db: Db, id: Id): (r: Db)
    ensures forall t :: t in r.transformers <==> t in db.transformers && t.dispatchId != id
    ensures forall d :: d in r.dispatches <==> exists e :: e in db.dispatches && e.id != id && d == Detach(e, id)
  {
    var kept := Filter(db.dispatches, (d: Dispatch) => d.id != id);
    var detached := seq(|kept|, i requires 0 <= i < |kept| => Detach(kept[i], id));
    assert forall d :: d in detached <==> exists e :: e in kept && d == Detach(e, id) by {
      forall d | d in detached ensures exists e :: e in kept && d == Detach(e, id) {
        var i :| 0 <= i < |detached| && detached[i] == d;
        assert kept[i] in kept;
      }
      forall d | exists e :: e in kept && d == Detach(e, id) ensures d in detached {
        var e :| e in kept && d == Detach(e, id);
        var i :| 0 <= i < |kept| && kept[i] == e;
        assert detached[i] == d;
      }
    }
    Db(detached, RemoveUnitsOf(db, id).transformers)
  }

  /** After the delete the dispatch and all of its units are gone, every other dispatch keeps
      exactly its units, and the store stays well-formed. */
  lemma DeleteCascadeEffect(db: Db, id: Id, bound: nat)
    requires WellFormed(db) && IdsBelow(db, bound)
    ensures var r := DeleteCascade(db, id);
      && WellFormed(r) && IdsBelow(r, bound)
      && DispatchIds(r) == DispatchIds(db) - {id}
      && UnitsOf(r, id) == []
      && forall k :: k != id ==> UnitsOf(r, k) == UnitsOf(db, k)
  {
    DeleteKeepsWellFormed(db, id, bound);
    RemoveUnitsOfEffect(db, id);
  }

  lemma DeleteKeepsWellFormed(db: Db, id: Id, bound: nat)
    requires WellFormed(db) && IdsBelow(db, bound)
    ensures var r := DeleteCascade(db, id);
      && WellFormed(r) && IdsBelow(r, bound)
      && DispatchIds(r) == DispatchIds(db) - {id}
  {
    var r := DeleteCascade(db, id);
    DeleteDispatchIds(db, id);
    DeleteRefsOk(db, id);
    var kept := Filter(db.dispatches, (d: Dispatch) => d.id != id);
    FilterDistinct(db.dispatches, (d: Dispatch) => d.id != id, (d: Dispatch) => d.id);
    assert KeysDistinct(kept, (d: Dispatch) => d.id);
    RemoveUnitsKeepsValid(db, id, bound);
  }

  /** The delete removes exactly the id `id` from the dispatch ids. */
  lemma DeleteDispatchIds(db: Db, id: Id)
    ensures DispatchIds(DeleteCascade(db, id)) == DispatchIds(db) - {id}
  {
    var r := DeleteCascade(db, id);
    forall x | x in DispatchIds(db) - {id} ensures x in DispatchIds(r) {
      var e :| e in db.dispatches && e.id == x;
      assert Detach(e, id) in r.dispatches;
    }
  }

  /** No surviving reference dangles: those to `id` were cleared, the others still resolve. */
  lemma DeleteRefsOk(db: Db, id: Id)
    requires WellFormed(db)
    ensures var r := DeleteCascade(db, id);
      forall d :: d in r.dispatches ==> RefOk(r, d.linkedCvId) && RefOk(r, d.sourceDispatchId)
  {
    var r := DeleteCascade(db, id);
    DeleteDispatchIds(db, id);
    forall d | d in r.dispatches
      ensures RefOk(r, d.linkedCvId) && RefOk(r, d.sourceDispatchId)
    {
      var e :| e in db.dispatches && e.id != id && d == Detach(e, id);
    }
  }

  /** Every surviving dispatch is found under its id, with only its references to the deleted
      dispatch cleared. */
  lemma DeleteKeepsOthers(db: Db, id: Id, e: Dispatch)
    requires WellFormed(db) && e in db.dispatches && e.id != id
    ensures FindDispatch(DeleteCascade(db, id), e.id) == Some(Detach(e, id))
  {
    DeleteCascadeEffect(db, id, MaxId(db) + 1);
    FindDispatchIff(DeleteCascade(db, id), Detach(e, id));
  }

  /** A bound above every id in the store. */
  function MaxId(db: Db): (m: nat)
    ensures IdsBelow(db, m + 1)
  {
    MaxIdOf(db.dispatches, db.transformers)
  }

  function MaxIdOf(ds: seq<Dispatch>, ts: seq<Transformer>): (m: nat)
    ensures forall d :: d in ds ==> d.id <= m
    ensures forall t :: t in ts ==> t.id <= m
  {
    if ds != [] then
      var m := MaxIdOf(ds[1..], ts);
      assert forall d :: d in ds ==> d == ds[0] || d in ds[1..];
      if ds[0].id > m then ds[0].id else m
    else if ts != [] then
      var m := MaxIdOf([], ts[1..]);
      assert forall t :: t in ts ==> t == ts[0] || t in ts[1..];
      if ts[0].id > m then ts[0].id else m
    else 0
  }

  /** deleteDispatch. A missing id, or a storage fault (`storageFails`), makes the delete throw:
      the action reports failure and the store is unchanged. */
  method Delete(store: Store, id: Id, storageFails: bool) returns (o: Outcome)
    requires store.Valid()
    modifies store
    ensures store.Valid() && store.nextId == old(store.nextId)
    ensures storageFails || !HasDispatch(old(store.db), id) ==>
      o == Failed(StorageError) && store.db == old(store.db)
    ensures !storageFails && HasDispatch(old(store.db), id) ==>
      o == Success && store.db == DeleteCascade(old(store.db), id)
  {
    if storageFails || !HasDispatch(store.db, id) {
      return Failed(StorageError);
    }
    DeleteCascadeEffect(store.db, id, store.nextId);
    store.db := DeleteCascade(store.db, id);
    o := Success;
  }

  /** Deleting the same dispatch twice: the second call fails. */
  lemma DeleteTwiceFails(db: Db, id: Id)
    requires WellFormed(db)
    ensures !HasDispatch(DeleteCascade(db, id), id)
  {
    DeleteCascadeEffect(db, id, MaxId(db) + 1);
    assert id !in DispatchIds(DeleteCascade(db, id));
  }
}
