/** The database every server action reads and writes, as an in-memory object. The ORM's calls
    become reassignments of `db`; `nextId` stands for the store's id generator. The write
    primitives shared by several actions (a dispatch created with nested units, `createMany`,
    `deleteMany`) are defined here once. */
module Store {
  import opened Seqs
  import opened Model

  /** One unit row as a form submits it. Capacity is required by every form's schema. */
  datatype UnitInput = UnitInput(
    serialNumber: string, capacity: string, model: Option<string>, note: Option<string>,
    testResult: Option<TestResult>, imageUrl: Option<string>)

  /** `documentType || "CV"`: the submitted kind, or the default. */
  function DocumentTypeOr(o: Option<DocumentType>): (k: DocumentType)
    ensures o.None? ==> k == DefaultDocumentType
    ensures o.Some? ==> k == o.value
  {
    if o.Some? then o.value else DefaultDocumentType
  }

  /** `isCBM || false`: set only when the form says true. */
  function FlagOr(o: Option<bool>): (b: bool)
    ensures b <==> o == Some(true)
  {
    o.Some? && o.value
  }

  /** `fileUrl || ""`. */
  function UrlOr(o: Option<string>): (u: string)
    ensures Truthy(o) ==> u == o.value
    ensures !Truthy(o) ==> u == ""
  {
    if Truthy(o) then o.value else ""
  }

  /** Every form's unit schema: at least one row, each with a non-empty serial and capacity. */
  predicate ValidRows(rows: seq<UnitInput>)
  {
    |rows| >= 1 && forall r :: r in rows ==> |r.serialNumber| >= 1 && |r.capacity| >= 1
  }

  /** Unit `t` is the row `row` as written: serial, capacity, model and note always; the test
      result and image only when `keepLab`, otherwise left empty. */
  predicate CopiesRow(t: Transformer, row: UnitInput, keepLab: bool)
  {
    && t.serialNumber == row.serialNumber && t.capacity == Some(row.capacity)
    && t.model == row.model && t.note == row.note
    && (if keepLab then t.testResult == row.testResult && t.imageUrl == row.imageUrl
        else t.testResult == None && t.imageUrl == None)
  }

  /** The unit rows created for dispatch `dispatchId`, with fresh ids from `firstId` on. */
  function NewUnits(rows: seq<UnitInput>, dispatchId: Id, firstId: nat, now: int, keepLab: bool)
    : (us: seq<Transformer>)
    ensures |us| == |rows|
    ensures forall i :: 0 <= i < |us| ==>
      && CopiesRow(us[i], rows[i], keepLab)
      && us[i].id == firstId + i && us[i].dispatchId == dispatchId
      && us[i].isProcessed == DefaultIsProcessed && us[i].createdAt == now
  {
    seq(|rows|, i requires 0 <= i < |rows| =>
      var r := rows[i];
      Transformer(firstId + i, dispatchId, r.serialNumber, Some(r.capacity), r.model, r.note,
                  if keepLab then r.testResult else None,
                  if keepLab then r.imageUrl else None,
                  DefaultIsProcessed, now))
  }

  /** `dispatch.create` with nested `transformers.create`: one row appended to each table. */
  function InsertDispatch(db: Db, d: Dispatch, us: seq<Transformer>): Db
  {
    Db(db.dispatches + [d], db.transformers + us)
  }

  /** `transformer.createMany`. */
  function AddUnits(db: Db, us: seq<Transformer>): Db
  {
    Db(db.dispatches, db.transformers + us)
  }

  /** `transformer.deleteMany({ where: { dispatchId: id } })`. */
  function RemoveUnitsOf(db: Db, id: Id): (r: Db)
    ensures r.dispatches == db.dispatches
    ensures forall t :: t in r.transformers <==> t in db.transformers && t.dispatchId != id
  {
    Db(db.dispatches, Filter(db.transformers, (t: Transformer) => t.dispatchId != id))
  }

  /** `dispatch.updateMany({ where: p, data: f })`, and `dispatch.update` when `p` selects one
      id: every row satisfying `p` is rewritten by `f` in place; the units are untouched. */
  function UpdateWhere(db: Db, p: Dispatch -> bool, f: Dispatch -> Dispatch): (r: Db)
    ensures r.transformers == db.transformers && |r.dispatches| == |db.dispatches|
    ensures forall i :: 0 <= i < |db.dispatches| ==>
      r.dispatches[i] == if p(db.dispatches[i]) then f(db.dispatches[i]) else db.dispatches[i]
  {
    Db(seq(|db.dispatches|, i requires 0 <= i < |db.dispatches| =>
         var d := db.dispatches[i];
         if p(d) then f(d) else d),
       db.transformers)
  }

  /** `transformer.update` (and `updateMany`): every unit satisfying `p` is rewritten by `f` in
      place; the dispatches are untouched. */
  function UpdateUnitsWhere(db: Db, p: Transformer -> bool, f: Transformer -> Transformer): (r: Db)
    ensures r.dispatches == db.dispatches && |r.transformers| == |db.transformers|
    ensures forall i :: 0 <= i < |db.transformers| ==>
      r.transformers[i] == if p(db.transformers[i]) then f(db.transformers[i]) else db.transformers[i]
  {
    Db(db.dispatches,
       seq(|db.transformers|, i requires 0 <= i < |db.transformers| =>
         var t := db.transformers[i];
         if p(t) then f(t) else t))
  }

  /** Every id in use is below `bound`. */
  predicate IdsBelow(db: Db, bound: nat)
  {
    && (forall d :: d in db.dispatches ==> d.id < bound)
    && (forall t :: t in db.transformers ==> t.id < bound)
  }

  /** Units numbered consecutively from `first` and owned by `owner`. */
  predicate FreshUnits(us: seq<Transformer>, owner: Id, first: nat)
  {
    forall i :: 0 <= i < |us| ==> us[i].id == first + i && us[i].dispatchId == owner
  }

  lemma AppendDistinctIds(ts: seq<Transformer>, us: seq<Transformer>, bound: nat)
    requires forall i, j :: 0 <= i < j < |ts| ==> ts[i].id != ts[j].id
    requires forall t :: t in ts ==> t.id < bound
    requires forall i :: 0 <= i < |us| ==> us[i].id == bound + i
    ensures forall i, j :: 0 <= i < j < |ts + us| ==> (ts + us)[i].id != (ts + us)[j].id
  {
    forall i, j | 0 <= i < j < |ts + us| ensures (ts + us)[i].id != (ts + us)[j].id {
      if j >= |ts| && i < |ts| {
        assert ts[i] in ts;
      }
    }
  }

  /** Creating a dispatch with fresh ids keeps the store well-formed, gives the new dispatch
      exactly the new units, and leaves every other dispatch's units as they were. */
  lemma InsertFresh(db: Db, d: Dispatch, us: seq<Transformer>, bound: nat)
    requires WellFormed(db) && IdsBelow(db, bound)
    requires d.id == bound && FreshUnits(us, d.id, bound + 1)
    requires RefOk(db, d.linkedCvId) && RefOk(db, d.sourceDispatchId)
    ensures var db' := InsertDispatch(db, d, us);
      && WellFormed(db') && IdsBelow(db', bound + |us| + 1)
      && DispatchIds(db') == DispatchIds(db) + {d.id}
      && FindDispatch(db', d.id) == Some(d)
      && UnitsOf(db', d.id) == us
      && forall k :: k != d.id ==> UnitsOf(db', k) == UnitsOf(db, k)
  {
    InsertWellFormed(db, d, us, bound);
    assert FindIn(db.dispatches, d.id) == None;
    FindInAppend(db.dispatches, [d], d.id);
    InsertUnits(db, d, us, bound);
  }

  lemma InsertWellFormed(db: Db, d: Dispatch, us: seq<Transformer>, bound: nat)
    requires WellFormed(db) && IdsBelow(db, bound)
    requires d.id == bound && FreshUnits(us, d.id, bound + 1)
    requires RefOk(db, d.linkedCvId) && RefOk(db, d.sourceDispatchId)
    ensures var db' := InsertDispatch(db, d, us);
      && WellFormed(db') && IdsBelow(db', bound + |us| + 1)
      && DispatchIds(db') == DispatchIds(db) + {d.id}
  {
    var db' := InsertDispatch(db, d, us);
    assert DispatchIds(db') == DispatchIds(db) + {d.id} by {
      assert forall e :: e in db'.dispatches <==> e in db.dispatches || e == d;
    }
    forall i, j | 0 <= i < j < |db'.dispatches| ensures db'.dispatches[i].id != db'.dispatches[j].id {
      if j == |db.dispatches| {
        assert db.dispatches[i] in db.dispatches;
      }
    }
    AppendDistinctIds(db.transformers, us, bound + 1);
    forall t | t in db'.transformers ensures t.dispatchId in DispatchIds(db') {
      if t !in db.transformers {
        var i :| 0 <= i < |us| && us[i] == t;
      }
    }
  }

  lemma InsertUnits(db: Db, d: Dispatch, us: seq<Transformer>, bound: nat)
    requires WellFormed(db) && IdsBelow(db, bound)
    requires d.id == bound && FreshUnits(us, d.id, bound + 1)
    ensures var db' := InsertDispatch(db, d, us);
      && UnitsOf(db', d.id) == us
      && forall k :: k != d.id ==> UnitsOf(db', k) == UnitsOf(db, k)
  {
    var db' := InsertDispatch(db, d, us);
    FilterAppend(db.transformers, us, (t: Transformer) => t.dispatchId == d.id);
    FilterNone(db.transformers, (t: Transformer) => t.dispatchId == d.id);
    assert forall t :: t in us ==> t.dispatchId == d.id;
    FilterAll(us, (t: Transformer) => t.dispatchId == d.id);
    forall k | k != d.id ensures UnitsOf(db', k) == UnitsOf(db, k) {
      FilterAppend(db.transformers, us, (t: Transformer) => t.dispatchId == k);
      FilterNone(us, (t: Transformer) => t.dispatchId == k);
    }
  }

  /** A dispatch update that keeps every id and sets references only to stored dispatches keeps
      the store well-formed and its set of dispatch ids. */
  lemma UpdateWhereKeepsValid(db: Db, p: Dispatch -> bool, f: Dispatch -> Dispatch, bound: nat)
    requires WellFormed(db) && IdsBelow(db, bound)
    requires forall d :: f(d).id == d.id
    requires forall d :: d in db.dispatches && p(d) ==> RefOk(db, f(d).linkedCvId) && RefOk(db, f(d).sourceDispatchId)
    ensures var r := UpdateWhere(db, p, f);
      WellFormed(r) && IdsBelow(r, bound) && DispatchIds(r) == DispatchIds(db)
  {
    var r := UpdateWhere(db, p, f);
    UpdateWhereIds(db, p, f);
    forall d | d in r.dispatches
      ensures RefOk(r, d.linkedCvId) && RefOk(r, d.sourceDispatchId) && d.id < bound
    {
      var i :| 0 <= i < |r.dispatches| && r.dispatches[i] == d;
      assert db.dispatches[i] in db.dispatches;
    }
  }

  /** An update that keeps ids keeps each row's id in its place, and so the set of ids. */
  lemma UpdateWhereIds(db: Db, p: Dispatch -> bool, f: Dispatch -> Dispatch)
    requires forall d :: f(d).id == d.id
    ensures var r := UpdateWhere(db, p, f);
      && (forall i :: 0 <= i < |r.dispatches| ==> r.dispatches[i].id == db.dispatches[i].id)
      && DispatchIds(r) == DispatchIds(db)
  {
    var r := UpdateWhere(db, p, f);
    forall x | x in DispatchIds(db) ensures x in DispatchIds(r) {
      var d :| d in db.dispatches && d.id == x;
      var i :| 0 <= i < |db.dispatches| && db.dispatches[i] == d;
      assert r.dispatches[i].id == x;
    }
    forall x | x in DispatchIds(r) ensures x in DispatchIds(db) {
      var d :| d in r.dispatches && d.id == x;
      var i :| 0 <= i < |r.dispatches| && r.dispatches[i] == d;
      assert db.dispatches[i].id == x;
    }
  }

  /** A unit update that keeps every unit's id and owner keeps the store well-formed. */
  lemma UpdateUnitsWhereKeepsValid(db: Db, p: Transformer -> bool, f: Transformer -> Transformer, bound: nat)
    requires WellFormed(db) && IdsBelow(db, bound)
    requires forall t :: f(t).id == t.id && f(t).dispatchId == t.dispatchId
    ensures var r := UpdateUnitsWhere(db, p, f);
      WellFormed(r) && IdsBelow(r, bound) && TransformerIds(r) == TransformerIds(db)
  {
    var r := UpdateUnitsWhere(db, p, f);
    UpdateUnitsWhereIds(db, p, f);
    forall t | t in r.transformers
      ensures t.dispatchId in DispatchIds(r) && t.id < bound
    {
      var i :| 0 <= i < |r.transformers| && r.transformers[i] == t;
      assert db.transformers[i] in db.transformers;
    }
  }

  /** A unit update that keeps ids keeps each unit's id in its place, and so the set of ids. */
  lemma UpdateUnitsWhereIds(db: Db, p: Transformer -> bool, f: Transformer -> Transformer)
    requires forall t :: f(t).id == t.id
    ensures var r := UpdateUnitsWhere(db, p, f);
      && (forall i :: 0 <= i < |r.transformers| ==> r.transformers[i].id == db.transformers[i].id)
      && TransformerIds(r) == TransformerIds(db)
  {
    var r := UpdateUnitsWhere(db, p, f);
    forall x | x in TransformerIds(db) ensures x in TransformerIds(r) {
      var t :| t in db.transformers && t.id == x;
      var i :| 0 <= i < |db.transformers| && db.transformers[i] == t;
      assert r.transformers[i].id == x;
    }
    forall x | x in TransformerIds(r) ensures x in TransformerIds(db) {
      var t :| t in r.transformers && t.id == x;
      var i :| 0 <= i < |r.transformers| && r.transformers[i] == t;
      assert db.transformers[i].id == x;
    }
  }

  /** After an update that keeps ids, each dispatch is found under its id as the update left it. */
  lemma FindAfterUpdateWhere(db: Db, p: Dispatch -> bool, f: Dispatch -> Dispatch, d: Dispatch)
    requires WellFormed(db) && d in db.dispatches
    requires forall e :: f(e).id == e.id
    ensures FindDispatch(UpdateWhere(db, p, f), d.id) == Some(if p(d) then f(d) else d)
  {
    var r := UpdateWhere(db, p, f);
    var i :| 0 <= i < |db.dispatches| && db.dispatches[i] == d;
    assert r.dispatches[i] == (if p(d) then f(d) else d);
    forall a, b | 0 <= a < b < |r.dispatches| ensures r.dispatches[a].id != r.dispatches[b].id {
      assert r.dispatches[a].id == db.dispatches[a].id && r.dispatches[b].id == db.dispatches[b].id;
    }
    FindByUniqueId(r.dispatches, r.dispatches[i]);
  }

  /** The same, for any id: a row that was absent stays absent. */
  lemma FindAfterUpdateWhereAny(db: Db, p: Dispatch -> bool, f: Dispatch -> Dispatch, k: Id)
    requires WellFormed(db)
    requires forall e :: f(e).id == e.id
    ensures var o := FindDispatch(db, k);
      FindDispatch(UpdateWhere(db, p, f), k) == if o.None? then None else Some(if p(o.value) then f(o.value) else o.value)
  {
    var r := UpdateWhere(db, p, f);
    if HasDispatch(db, k) {
      FindAfterUpdateWhere(db, p, f, FindDispatch(db, k).value);
    } else {
      forall e | e in r.dispatches ensures e.id != k {
        var i :| 0 <= i < |r.dispatches| && r.dispatches[i] == e;
        assert db.dispatches[i] in db.dispatches;
      }
    }
  }

  /** `deleteMany` of a dispatch's units empties that dispatch and leaves every other
      dispatch's units alone. */
  lemma RemoveUnitsOfEffect(db: Db, id: Id)
    ensures var r := RemoveUnitsOf(db, id);
      && UnitsOf(r, id) == []
      && forall k :: k != id ==> UnitsOf(r, k) == UnitsOf(db, k)
  {
    var r := RemoveUnitsOf(db, id);
    FilterNone(r.transformers, (t: Transformer) => t.dispatchId == id);
    forall k | k != id ensures UnitsOf(r, k) == UnitsOf(db, k) {
      var notId := (t: Transformer) => t.dispatchId != id;
      var isK := (t: Transformer) => t.dispatchId == k;
      FilterFilter(db.transformers, notId, isK, isK);
    }
  }

  /** `deleteMany` of a dispatch's units keeps the store well-formed. */
  lemma RemoveUnitsKeepsValid(db: Db, id: Id, bound: nat)
    requires WellFormed(db) && IdsBelow(db, bound)
    ensures WellFormed(RemoveUnitsOf(db, id)) && IdsBelow(RemoveUnitsOf(db, id), bound)
  {
    FilterDistinct(db.transformers, (t: Transformer) => t.dispatchId != id, (t: Transformer) => t.id);
    assert KeysDistinct(RemoveUnitsOf(db, id).transformers, (t: Transformer) => t.id);
  }

  /** `createMany` of fresh units for an existing dispatch keeps the store well-formed, appends
      them to that dispatch's units and leaves every other dispatch's units alone. */
  lemma AddUnitsKeepsValid(db: Db, us: seq<Transformer>, id: Id, bound: nat)
    requires WellFormed(db) && IdsBelow(db, bound)
    requires id in DispatchIds(db) && FreshUnits(us, id, bound)
    ensures var r := AddUnits(db, us);
      && WellFormed(r) && IdsBelow(r, bound + |us|) && DispatchIds(r) == DispatchIds(db)
      && UnitsOf(r, id) == UnitsOf(db, id) + us
      && forall k :: k != id ==> UnitsOf(r, k) == UnitsOf(db, k)
  {
    AppendDistinctIds(db.transformers, us, bound);
    forall t | t in us ensures t.dispatchId == id && t.id < bound + |us| {
      var i :| 0 <= i < |us| && us[i] == t;
    }
    FilterAppend(db.transformers, us, (t: Transformer) => t.dispatchId == id);
    FilterAll(us, (t: Transformer) => t.dispatchId == id);
    forall k | k != id ensures UnitsOf(AddUnits(db, us), k) == UnitsOf(db, k) {
      FilterAppend(db.transformers, us, (t: Transformer) => t.dispatchId == k);
      FilterNone(us, (t: Transformer) => t.dispatchId == k);
    }
  }

  lemma {:induction false} FindInAppend(a: seq<Dispatch>, b: seq<Dispatch>, id: Id)
    requires FindIn(a, id) == None
    ensures FindIn(a + b, id) == FindIn(b, id)
  {
    if a != [] {
      assert (a + b)[1..] == a[1..] + b;
      FindInAppend(a[1..], b, id);
    } else {
      assert a + b == b;
    }
  }

  class Store {
    var db: Db
    var nextId: nat

    /** The store is well-formed and every id in use was drawn before `nextId`. */
    ghost predicate Valid()
      reads this
    {
      WellFormed(db) && IdsBelow(db, nextId)
    }

    constructor ()
      ensures Valid()
      ensures db == Db([], []) && nextId == 0
    {
      db := Db([], []);
      nextId := 0;
    }

    /** Creates `template` (under a fresh id) together with one unit per row, in one
        transaction; returns the new dispatch's id. */
    method CreateWithUnits(template: Dispatch, rows: seq<UnitInput>, now: int, keepLab: bool)
      returns (id: Id)
      requires Valid()
      requires RefOk(db, template.linkedCvId) && RefOk(db, template.sourceDispatchId)
      modifies this
      ensures Valid()
      ensures id == old(nextId) && nextId == old(nextId) + |rows| + 1
      ensures db == InsertDispatch(old(db), template.(id := id), NewUnits(rows, id, id + 1, now, keepLab))
      ensures DispatchIds(db) == DispatchIds(old(db)) + {id}
    {
      id := nextId;
      var us := NewUnits(rows, id, id + 1, now, keepLab);
      InsertFresh(db, template.(id := id), us, id);
      db := InsertDispatch(db, template.(id := id), us);
      nextId := nextId + |rows| + 1;
    }
  }
}
