/** The lifecycle queries of app/actions/get-dispatches.ts: official import letters whose units
    have not all come back, CBM (lab-test) exports not yet received back, failed CBM units still
    to be handled, and the `isProcessed` marker. */
module GetDispatches {
  import opened Seqs
  import opened Model
  import opened Capacity
  import opened Store

  /** The `exportedDispatches` relation of `d`: every dispatch whose `sourceDispatchId` is `d`,
      whatever its own type. */
  function LinkedExports(db: Db, d: Dispatch): (r: seq<Dispatch>)
    ensures forall e :: e in r <==> e in db.dispatches && e.sourceDispatchId == Some(d.id)
  {
    Filter(db.dispatches, (e: Dispatch) => e.sourceDispatchId == Some(d.id))
  }

  /** `flatMap(exp => exp.transformers)`: the units of the given dispatches, concatenated. */
  function UnitsOfAll(db: Db, es: seq<Dispatch>): seq<Transformer>
  {
    if es == [] then [] else UnitsOf(db, es[0].id) + UnitsOfAll(db, es[1..])
  }

  /** `reduce((sum, exp) => sum + exp.transformers.length, 0)`, folding from the left. */
  function ReturnedCount(db: Db, es: seq<Dispatch>, acc: nat): nat
  {
    if es == [] then acc else ReturnedCount(db, es[1..], acc + |UnitsOf(db, es[0].id)|)
  }

  /** The returned count is the number of units across all linked exports. */
  lemma {:induction false} ReturnedCountIsUnitTotal(db: Db, es: seq<Dispatch>, acc: nat)
    ensures ReturnedCount(db, es, acc) == acc + |UnitsOfAll(db, es)|
  {
    if es != [] {
      ReturnedCountIsUnitTotal(db, es[1..], acc + |UnitsOf(db, es[0].id)|);
    }
  }

  /** An import letter's lifecycle is open while its capacity map differs from the combined
      capacity map of every dispatch linked to it. */
  predicate IsIncompleteImport(db: Db, d: Dispatch)
  {
    !SameCapacities(UnitsOf(db, d.id), UnitsOfAll(db, LinkedExports(db, d)))
  }

  predicate IsImportCv(d: Dispatch)
  {
    d.dispatchType == Import && d.documentType == CV
  }

  /** The IMPORT, CV dispatches with open lifecycles, newest date first. CBM imports are not
      excluded. */
  function IncompleteImports(db: Db): (r: seq<Dispatch>)
    ensures forall d :: d in r <==> d in db.dispatches && IsImportCv(d) && IsIncompleteImport(db, d)
    ensures forall i, j :: 0 <= i < j < |r| ==> r[i].date >= r[j].date
  {
    var candidates := Filter(db.dispatches, IsImportCv);
    var byDate := SortBy(candidates, (d: Dispatch) => -d.date);
    SortByMembers(candidates, (d: Dispatch) => -d.date);
    FilterSorted(byDate, (d: Dispatch) => IsIncompleteImport(db, d), (d: Dispatch) => -d.date);
    Filter(byDate, (d: Dispatch) => IsIncompleteImport(db, d))
  }

  /** Returning more units than were received also leaves the letter open. */
  lemma OverReturnIsIncomplete(db: Db, d: Dispatch)
    requires |UnitsOfAll(db, LinkedExports(db, d))| > |UnitsOf(db, d.id)|
    ensures IsIncompleteImport(db, d)
  {
    DifferentSizesDiffer(UnitsOf(db, d.id), UnitsOfAll(db, LinkedExports(db, d)));
  }

  /** A letter whose linked dispatches return units of the same capacities, in any order and
      with any serial numbers, is complete. */
  lemma ExactReturnCompletes(db: Db, d: Dispatch)
    requires multiset(Capacities(UnitsOf(db, d.id))) == multiset(Capacities(UnitsOfAll(db, LinkedExports(db, d))))
    ensures !IsIncompleteImport(db, d)
  {
    SameCapacitiesIffSameMultiset(UnitsOf(db, d.id), UnitsOfAll(db, LinkedExports(db, d)));
  }

  /** One row of getImportDispatches. */
  datatype ImportSummary = ImportSummary(
    id: Id, dispatchNumber: Option<string>, date: int, fileUrl: string,
    transformerCount: nat, returnedCount: nat)

  /** The row shows the letter's id, number, date and file, the number of units it brought in,
      and the number of units all its linked dispatches carry. */
  function Summarize(db: Db, d: Dispatch): (r: ImportSummary)
    ensures r == ImportSummary(d.id, d.dispatchNumber, d.date, d.fileUrl,
                               |UnitsOf(db, d.id)|, |UnitsOfAll(db, LinkedExports(db, d))|)
  {
    ReturnedCountIsUnitTotal(db, LinkedExports(db, d), 0);
    ImportSummary(d.id, d.dispatchNumber, d.date, d.fileUrl,
                  |UnitsOf(db, d.id)|, ReturnedCount(db, LinkedExports(db, d), 0))
  }

  /** getImportDispatches: one summary per open import letter; a storage error yields []. */
  function GetImportDispatches(snap: Snapshot): (r: seq<ImportSummary>)
    ensures snap.Unavailable? ==> r == []
    ensures snap.Available? ==>
      var ds := IncompleteImports(snap.db);
      && |r| == |ds|
      && forall i :: 0 <= i < |r| ==>
           r[i] == ImportSummary(ds[i].id, ds[i].dispatchNumber, ds[i].date, ds[i].fileUrl,
                                 |UnitsOf(snap.db, ds[i].id)|, |UnitsOfAll(snap.db, LinkedExports(snap.db, ds[i]))|)
  {
    match snap
    case Unavailable => []
    case Available(db) =>
      var ds := IncompleteImports(db);
      seq(|ds|, i requires 0 <= i < |ds| => Summarize(db, ds[i]))
  }

  /** A CBM export has been received back when some IMPORT names it as its source. */
  predicate ReceivedBack(db: Db, d: Dispatch)
  {
    exists i :: i in db.dispatches && i.dispatchType == Import && i.sourceDispatchId == Some(d.id)
  }

  predicate IsCbmExport(d: Dispatch)
  {
    d.dispatchType == Export && d.isCBM
  }

  function IdsOf(ds: seq<Dispatch>): set<Id>
  {
    set d | d in ds :: d.id
  }

  /** `completedCbmIds`: the sources of the imports that point at one of the CBM exports. */
  function CompletedCbmIds(db: Db, cbm: seq<Dispatch>): set<Id>
  {
    set i | i in db.dispatches && i.dispatchType == Import && i.sourceDispatchId.Some?
                && i.sourceDispatchId.value in IdsOf(cbm) :: i.sourceDispatchId.value
  }

  /** The EXPORT, CBM dispatches that no IMPORT points at, newest date first. */
  function PendingCbmExports(db: Db): (r: seq<Dispatch>)
    ensures forall d :: d in r <==> d in db.dispatches && IsCbmExport(d) && !ReceivedBack(db, d)
    ensures forall i, j :: 0 <= i < j < |r| ==> r[i].date >= r[j].date
  {
    var cbm := SortBy(Filter(db.dispatches, IsCbmExport), (d: Dispatch) => -d.date);
    SortByMembers(Filter(db.dispatches, IsCbmExport), (d: Dispatch) => -d.date);
    var completed := CompletedCbmIds(db, cbm);
    FilterSorted(cbm, (d: Dispatch) => d.id !in completed, (d: Dispatch) => -d.date);
    assert forall d :: d in cbm ==> (d.id in completed <==> ReceivedBack(db, d)) by {
      forall d | d in cbm ensures d.id in completed <==> ReceivedBack(db, d) {
        if ReceivedBack(db, d) {
          var i :| i in db.dispatches && i.dispatchType == Import && i.sourceDispatchId == Some(d.id);
          assert d.id in IdsOf(cbm);
        }
      }
    }
    Filter(cbm, (d: Dispatch) => d.id !in completed)
  }

  /** The fields of a unit the CBM list shows. */
  datatype UnitView = UnitView(
    serialNumber: string, capacity: Option<string>, model: Option<string>,
    note: Option<string>, testResult: Option<TestResult>)

  function ViewOf(t: Transformer): UnitView
  {
    UnitView(t.serialNumber, t.capacity, t.model, t.note, t.testResult)
  }

  /** One row of getExportCBMDispatches. */
  datatype CbmExportSummary = CbmExportSummary(
    id: Id, dispatchNumber: Option<string>, date: int, documentType: DocumentType,
    isCBM: bool, fileUrl: string, transformerCount: nat, transformers: seq<UnitView>)

  /** `e` shows dispatch `d`'s own fields and a view of each of its units, in store order. */
  predicate SummarizesCbm(db: Db, e: CbmExportSummary, d: Dispatch)
  {
    var us := UnitsOf(db, d.id);
    && e.id == d.id && e.dispatchNumber == d.dispatchNumber && e.date == d.date
    && e.documentType == d.documentType && e.isCBM == d.isCBM && e.fileUrl == d.fileUrl
    && e.transformerCount == |e.transformers| == |us|
    && forall k :: 0 <= k < |us| ==> e.transformers[k] == ViewOf(us[k])
  }

  function SummarizeCbm(db: Db, d: Dispatch): (e: CbmExportSummary)
    ensures SummarizesCbm(db, e, d)
  {
    var us := UnitsOf(db, d.id);
    CbmExportSummary(d.id, d.dispatchNumber, d.date, d.documentType, d.isCBM, d.fileUrl,
                     |us|, seq(|us|, i requires 0 <= i < |us| => ViewOf(us[i])))
  }

  /** getExportCBMDispatches: one summary per pending CBM export; a storage error yields []. */
  function GetExportCBMDispatches(snap: Snapshot): (r: seq<CbmExportSummary>)
    ensures snap.Unavailable? ==> r == []
    ensures snap.Available? ==>
      && |r| == |PendingCbmExports(snap.db)|
      && forall i :: 0 <= i < |r| ==>
           SummarizesCbm(snap.db, r[i], PendingCbmExports(snap.db)[i]) && r[i].isCBM
  {
    match snap
    case Unavailable => []
    case Available(db) =>
      var ds := PendingCbmExports(db);
      assert forall i :: 0 <= i < |ds| ==> ds[i] in ds;
      seq(|ds|, i requires 0 <= i < |ds| => SummarizeCbm(db, ds[i]))
  }

  /** A unit that failed lab testing after coming back on a CBM import, not yet re-sent. */
  predicate IsFailedCbmUnit(db: Db, t: Transformer)
  {
    && t.testResult == Some(Fail)
    && !t.isProcessed
    && match DispatchOf(db, t)
       case Some(d) => d.dispatchType == Import && d.isCBM
       case None => false
  }

  /** One row of getFailedCBMTransformers. */
  datatype FailedUnit = FailedUnit(
    id: Id, serialNumber: string, capacity: Option<string>, model: Option<string>,
    note: Option<string>, testResult: Option<TestResult>,
    dispatchNumber: Option<string>, dispatchDate: int)

  /** `e` shows unit `t` with the number and date of `t`'s own dispatch. */
  predicate Describes(db: Db, e: FailedUnit, t: Transformer)
  {
    && e.id == t.id && e.serialNumber == t.serialNumber && e.capacity == t.capacity
    && e.model == t.model && e.note == t.note && e.testResult == t.testResult
    && DispatchOf(db, t).Some?
    && e.dispatchNumber == DispatchOf(db, t).value.dispatchNumber
    && e.dispatchDate == DispatchOf(db, t).value.date
  }

  function FailedRow(db: Db, t: Transformer): (e: FailedUnit)
    requires DispatchOf(db, t).Some?
    ensures Describes(db, e, t)
  {
    var d := DispatchOf(db, t).value;
    FailedUnit(t.id, t.serialNumber, t.capacity, t.model, t.note, t.testResult, d.dispatchNumber, d.date)
  }

  /** The failed CBM units, newest first. */
  function FailedCbmUnits(db: Db): (r: seq<Transformer>)
    ensures forall t :: t in r <==> t in db.transformers && IsFailedCbmUnit(db, t)
    ensures forall i, j :: 0 <= i < j < |r| ==> r[i].createdAt >= r[j].createdAt
  {
    var failed := Filter(db.transformers, (t: Transformer) => IsFailedCbmUnit(db, t));
    SortByMembers(failed, (t: Transformer) => -t.createdAt);
    SortBy(failed, (t: Transformer) => -t.createdAt)
  }

  /** getFailedCBMTransformers: one entry per failed CBM unit, in that list's order, each
      carrying its own dispatch's number and date; a storage error yields []. */
  function GetFailedCBMTransformers(snap: Snapshot): (r: seq<FailedUnit>)
    ensures snap.Unavailable? ==> r == []
    ensures snap.Available? ==>
      var us := FailedCbmUnits(snap.db);
      |r| == |us| && forall i :: 0 <= i < |r| ==> Describes(snap.db, r[i], us[i])
  {
    match snap
    case Unavailable => []
    case Available(db) =>
      var us := FailedCbmUnits(db);
      assert forall i :: 0 <= i < |us| ==> us[i] in us;
      seq(|us|, i requires 0 <= i < |us| => FailedRow(db, us[i]))
  }

  /** Sets `isProcessed` on the unit with id `id`, leaving everything else as it was. */
  function MarkProcessed(db: Db, id: Id): (r: Db)
    ensures r.dispatches == db.dispatches
    ensures |r.transformers| == |db.transformers|
    ensures forall i :: 0 <= i < |db.transformers| ==>
      r.transformers[i] == if db.transformers[i].id == id
                           then db.transformers[i].(isProcessed := true)
                           else db.transformers[i]
  {
    UpdateUnitsWhere(db, (t: Transformer) => t.id == id, (t: Transformer) => t.(isProcessed := true))
  }

  /** Marking is idempotent: a second mark changes nothing. */
  lemma MarkProcessedIdempotent(db: Db, id: Id)
    ensures MarkProcessed(MarkProcessed(db, id), id) == MarkProcessed(db, id)
  {
  }

  /** A marked unit drops out of the failed-CBM list, and nothing else does. */
  lemma MarkedUnitLeavesFailedList(db: Db, id: Id, t: Transformer)
    requires t in db.transformers
    ensures var t' := if t.id == id then t.(isProcessed := true) else t;
      && t' in MarkProcessed(db, id).transformers
      && (IsFailedCbmUnit(MarkProcessed(db, id), t') <==> t.id != id && IsFailedCbmUnit(db, t))
  {
    var i :| 0 <= i < |db.transformers| && db.transformers[i] == t;
    assert MarkProcessed(db, id).transformers[i] == (if t.id == id then t.(isProcessed := true) else t);
  }

  /** markTransformerProcessed: the update fails (and writes nothing) when no unit has the id,
      or when the storage throws (`storageFails`). */
  method MarkTransformerProcessed(store: Store, id: Id, storageFails: bool) returns (o: Outcome)
    requires store.Valid()
    modifies store
    ensures store.Valid() && store.nextId == old(store.nextId)
    ensures !storageFails && id in TransformerIds(old(store.db)) ==>
      o == Success && store.db == MarkProcessed(old(store.db), id)
    ensures storageFails || id !in TransformerIds(old(store.db)) ==>
      o == Failed(StorageError) && store.db == old(store.db)
  {
    if storageFails || id !in TransformerIds(store.db) {
      return Failed(StorageError);
    }
    UpdateUnitsWhereKeepsValid(store.db, (t: Transformer) => t.id == id,
                               (t: Transformer) => t.(isProcessed := true), store.nextId);
    store.db := MarkProcessed(store.db, id);
    o := Success;
  }
}
