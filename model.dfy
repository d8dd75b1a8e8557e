/** The records of the transformer-dispatch store: dispatch documents and the transformer
    units they own, with the joins the queries use and the well-formedness the store keeps. */
module Model {
  import opened Seqs

  datatype Option<+T> = None | Some(value: T)

  /** Record identifiers (the store generates them; opaque to the application). */
  type Id = nat

  /** A dispatch's `type` column. The application writes only IMPORT and EXPORT, but the column
      is free text, so any other value is representable. */
  datatype DispatchType = Import | Export | OtherType(name: string)

  /** A dispatch's `documentType`: an official letter (CV) or a provisional submission (TTr). */
  datatype DocumentType = CV | TTr

  datatype TestResult = Pass | Fail

  /** One dispatch document. Dates are instants (milliseconds). */
  datatype Dispatch = Dispatch(
    id: Id,
    dispatchNumber: Option<string>,
    fileUrl: string,
    dispatchType: DispatchType,
    documentType: DocumentType,
    isCBM: bool,
    date: int,
    transactionDate: Option<int>,
    linkedCvId: Option<Id>,
    sourceDispatchId: Option<Id>,
    teamId: Option<Id>,
    createdAt: int)

  /** One transformer unit, owned by the dispatch `dispatchId`. */
  datatype Transformer = Transformer(
    id: Id,
    dispatchId: Id,
    serialNumber: string,
    capacity: Option<string>,
    model: Option<string>,
    note: Option<string>,
    testResult: Option<TestResult>,
    imageUrl: Option<string>,
    isProcessed: bool,
    createdAt: int)

  /** The whole store: both tables, each in insertion order. */
  datatype Db = Db(dispatches: seq<Dispatch>, transformers: seq<Transformer>)

  /** What a read returns: the store's current contents, or a storage error. */
  datatype Snapshot = Available(db: Db) | Unavailable

  /** Why an action failed: its input did not validate, or a storage call threw. */
  datatype Failure = InvalidInput | StorageError

  /** The `{ success, error }` object the server actions return. */
  datatype Outcome = Success | Failed(reason: Failure)

  /** Column defaults of the schema for columns an insert leaves out. */
  const DefaultDocumentType: DocumentType := CV
  const DefaultIsCBM: bool := false
  const DefaultIsProcessed: bool := false

  /** JavaScript's `s || ""`-style truthiness of an optional string: absent and "" are falsy. */
  predicate Truthy(s: Option<string>)
  {
    s.Some? && s.value != ""
  }

  function DispatchIds(db: Db): set<Id>
  {
    set d | d in db.dispatches :: d.id
  }

  function TransformerIds(db: Db): set<Id>
  {
    set t | t in db.transformers :: t.id
  }

  predicate HasDispatch(db: Db, id: Id)
  {
    exists d :: d in db.dispatches && d.id == id
  }

  /** The dispatch row with this id, if any (the first one; ids are unique in a well-formed store). */
  function FindDispatch(db: Db, id: Id): (r: Option<Dispatch>)
    ensures r.Some? ==> r.value in db.dispatches && r.value.id == id
    ensures r.None? <==> !HasDispatch(db, id)
  {
    FindIn(db.dispatches, id)
  }

  function FindIn(ds: seq<Dispatch>, id: Id): (r: Option<Dispatch>)
    ensures r.Some? ==> r.value in ds && r.value.id == id
    ensures r.None? <==> forall d :: d in ds ==> d.id != id
  {
    if ds == [] then None
    else if ds[0].id == id then Some(ds[0])
    else FindIn(ds[1..], id)
  }

  /** The units owned by dispatch `id`, in store order. */
  function UnitsOf(db: Db, id: Id): seq<Transformer>
  {
    Filter(db.transformers, (t: Transformer) => t.dispatchId == id)
  }

  /** The dispatch a unit belongs to (the `include: { dispatch: true }` join). */
  function DispatchOf(db: Db, t: Transformer): Option<Dispatch>
  {
    FindDispatch(db, t.dispatchId)
  }

  /** An optional reference is either absent or names an existing dispatch. */
  predicate RefOk(db: Db, r: Option<Id>)
  {
    r.None? || r.value in DispatchIds(db)
  }

  /** The store's integrity: unique ids, every unit owned by an existing dispatch, and the
      two dispatch-to-dispatch references (linkedCvId, sourceDispatchId) never dangling. */
  predicate WellFormed(db: Db)
  {
    && (forall i, j :: 0 <= i < j < |db.dispatches| ==> db.dispatches[i].id != db.dispatches[j].id)
    && (forall i, j :: 0 <= i < j < |db.transformers| ==> db.transformers[i].id != db.transformers[j].id)
    && (forall t :: t in db.transformers ==> t.dispatchId in DispatchIds(db))
    && (forall d :: d in db.dispatches ==> RefOk(db, d.linkedCvId) && RefOk(db, d.sourceDispatchId))
  }

  /** In a well-formed store a dispatch row is found by its id exactly when it is stored. */
  lemma FindDispatchIff(db: Db, d: Dispatch)
    requires WellFormed(db)
    ensures FindDispatch(db, d.id) == Some(d) <==> d in db.dispatches
  {
    FindByUniqueId(db.dispatches, d);
  }

  /** Among rows with distinct ids, a row is found by its id exactly when it is present. */
  lemma FindByUniqueId(ds: seq<Dispatch>, d: Dispatch)
    requires forall i, j :: 0 <= i < j < |ds| ==> ds[i].id != ds[j].id
    ensures FindIn(ds, d.id) == Some(d) <==> d in ds
  {
    if d in ds {
      var e := FindIn(ds, d.id).value;
      var i :| 0 <= i < |ds| && ds[i] == d;
      var j :| 0 <= j < |ds| && ds[j] == e;
      assert !(i < j) && !(j < i);
    }
  }

  /** A dispatch row fetched with `include: { transformers: true }`. */
  datatype DispatchWithUnits = DispatchWithUnits(dispatch: Dispatch, transformers: seq<Transformer>)

  function WithUnits(db: Db, d: Dispatch): DispatchWithUnits
  {
    DispatchWithUnits(d, UnitsOf(db, d.id))
  }

  /** A fetched unit paired with its dispatch row. */
  datatype UnitWithDispatch = UnitWithDispatch(unit: Transformer, dispatch: Dispatch)

  /** Joins each unit with its dispatch row, dropping any unit whose dispatch is missing
      (none is, in a well-formed store). */
  function Join(db: Db, ts: seq<Transformer>): (r: seq<UnitWithDispatch>)
    ensures |r| <= |ts|
    ensures forall x :: x in r ==> x.unit in ts && x.dispatch in db.dispatches && DispatchOf(db, x.unit) == Some(x.dispatch)
  {
    if ts == [] then []
    else
      var rest := Join(db, ts[1..]);
      match DispatchOf(db, ts[0])
      case Some(d) => [UnitWithDispatch(ts[0], d)] + rest
      case None => rest
  }

  /** In a well-formed store no unit is dropped by the join: it keeps every unit, in order. */
  lemma {:induction false} JoinKeepsAll(db: Db, ts: seq<Transformer>)
    requires forall t :: t in ts ==> t.dispatchId in DispatchIds(db)
    ensures |Join(db, ts)| == |ts|
    ensures forall i :: 0 <= i < |ts| ==> Join(db, ts)[i].unit == ts[i]
  {
    if ts != [] {
      JoinKeepsAll(db, ts[1..]);
      assert HasDispatch(db, ts[0].dispatchId);
    }
  }
}
