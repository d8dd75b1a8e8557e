/** app/actions/import-dispatch.ts: the dispatch-number search, and createImportDispatch, which
    inserts one IMPORT dispatch together with its units. */
module ImportDispatch {
  import opened Seqs
  import opened Model
  import opened Store
  import opened Text

  /** The search's `where`: the dispatch number contains the query (as the database matches it). */
  predicate MatchesQuery(d: Dispatch, query: string)
  {
    d.dispatchNumber.Some? && ContainsFolded(d.dispatchNumber.value, query)
  }

  /** `findMany` with the filter, newest `createdAt` first, `take: 5`. */
  function SearchResults(db: Db, query: string): (r: seq<Dispatch>)
    ensures |r| <= 5
    ensures forall d :: d in r ==> d in db.dispatches && MatchesQuery(d, query)
    ensures forall i, j :: 0 <= i < j < |r| ==> r[i].createdAt >= r[j].createdAt
  {
    var matching := Filter(db.dispatches, (d: Dispatch) => MatchesQuery(d, query));
    var sorted := SortBy(matching, (d: Dispatch) => -d.createdAt);
    SortByMembers(matching, (d: Dispatch) => -d.createdAt);
    Take(sorted, 5)
  }

  /** searchDispatches. A query shorter than two characters, or a storage error, gives no
      results; otherwise at most five matching dispatches, each with its own units, newest
      first. */
  function SearchDispatches(snap: Snapshot, query: string): (r: seq<DispatchWithUnits>)
    ensures |query| < 2 || snap.Unavailable? ==> r == []
    ensures |r| <= 5
    ensures snap.Available? ==> forall x :: x in r ==>
      x.dispatch in snap.db.dispatches && MatchesQuery(x.dispatch, query)
      && x.transformers == UnitsOf(snap.db, x.dispatch.id)
    ensures forall i, j :: 0 <= i < j < |r| ==> r[i].dispatch.createdAt >= r[j].dispatch.createdAt
  {
    if |query| < 2 then []
    else
      match snap
      case Unavailable => []
      case Available(db) =>
        var ds := SearchResults(db, query);
        assert forall i :: 0 <= i < |ds| ==> ds[i] in ds;
        seq(|ds|, i requires 0 <= i < |ds| => WithUnits(db, ds[i]))
  }

  /** The five results are the newest matches: a matching dispatch left out means five results
      came back, none older than it. */
  lemma SearchKeepsNewest(db: Db, query: string, d: Dispatch)
    requires d in db.dispatches && MatchesQuery(d, query)
    requires d !in SearchResults(db, query)
    ensures |SearchResults(db, query)| == 5
    ensures forall e :: e in SearchResults(db, query) ==> e.createdAt >= d.createdAt
  {
    var matching := Filter(db.dispatches, (d: Dispatch) => MatchesQuery(d, query));
    var sorted := SortBy(matching, (d: Dispatch) => -d.createdAt);
    SortByMembers(matching, (d: Dispatch) => -d.createdAt);
    assert d in sorted;
    var j :| 0 <= j < |sorted| && sorted[j] == d;
    var r := SearchResults(db, query);
    assert r == Take(sorted, 5);
    assert j >= |r| by {
      assert forall i :: 0 <= i < |r| ==> r[i] in r && r[i] == sorted[i];
    }
    forall e | e in r ensures e.createdAt >= d.createdAt {
      var i :| 0 <= i < |r| && r[i] == e;
      SortedAt(sorted, (d: Dispatch) => -d.createdAt, i, j);
    }
  }

  /** The import form. */
  datatype ImportForm = ImportForm(
    dispatchNumber: string, date: string, fileUrl: Option<string>, transformers: seq<UnitInput>)

  /** The form's schema: non-empty number and date, and valid unit rows. */
  predicate ValidImportForm(f: ImportForm)
  {
    |f.dispatchNumber| >= 1 && |f.date| >= 1 && ValidRows(f.transformers)
  }

  /** The inserted row, before the store gives it its id: the kind, the CBM flag and the
      references take the schema's defaults. */
  function ImportRow(f: ImportForm, date: int, now: int): Dispatch
  {
    Dispatch(0, Some(f.dispatchNumber), UrlOr(f.fileUrl), Import, DefaultDocumentType, DefaultIsCBM,
             date, None, None, None, None, now)
  }

  /** The store after the insert: the row with id `id`, owning one fresh unit per form row. */
  function Imported(db: Db, f: ImportForm, date: int, now: int, id: Id): Db
  {
    InsertDispatch(db, ImportRow(f, date, now).(id := id), NewUnits(f.transformers, id, id + 1, now, false))
  }

  /** The insert adds one IMPORT dispatch, with the form's number, date and file, the default
      kind and flag, owning one unit per row in order (no lab data). */
  lemma ImportedRow(db: Db, f: ImportForm, date: int, now: int, id: Id)
    requires WellFormed(db) && IdsBelow(db, id)
    ensures var r := Imported(db, f, date, now, id);
      var d := FindDispatch(r, id);
      && d.Some? && d.value.dispatchType == Import && d.value.fileUrl == UrlOr(f.fileUrl)
      && d.value.dispatchNumber == Some(f.dispatchNumber) && d.value.date == date
      && d.value.documentType == CV && !d.value.isCBM
      && |UnitsOf(r, id)| == |f.transformers|
      && (forall i :: 0 <= i < |f.transformers| ==> CopiesRow(UnitsOf(r, id)[i], f.transformers[i], false))
  {
    InsertFresh(db, ImportRow(f, date, now).(id := id), NewUnits(f.transformers, id, id + 1, now, false), id);
  }

  /** Nothing else changes: the store stays well-formed, gains exactly the id `id`, and every
      other dispatch keeps its units. */
  lemma ImportedKeepsOthers(db: Db, f: ImportForm, date: int, now: int, id: Id)
    requires WellFormed(db) && IdsBelow(db, id)
    ensures var r := Imported(db, f, date, now, id);
      && WellFormed(r) && IdsBelow(r, id + |f.transformers| + 1)
      && DispatchIds(r) == DispatchIds(db) + {id}
      && forall k :: k != id ==> UnitsOf(r, k) == UnitsOf(db, k)
  {
    InsertFresh(db, ImportRow(f, date, now).(id := id), NewUnits(f.transformers, id, id + 1, now, false), id);
  }

  /** createImportDispatch. A form that fails the schema writes nothing; an invalid date
      (`parse` stands for `new Date`) or a storage fault makes the insert throw and writes
      nothing; otherwise the store becomes `Imported` (see `ImportedRow` and `ImportedKeepsOthers`) and the next
      `|f.transformers| + 1` ids are used. */
  method CreateImportDispatch(store: Store, f: ImportForm, parse: string -> Option<int>, now: int, storageFails: bool)
    returns (o: Outcome)
    requires store.Valid()
    modifies store
    ensures store.Valid()
    ensures !ValidImportForm(f) ==>
      o == Failed(InvalidInput) && store.db == old(store.db) && store.nextId == old(store.nextId)
    ensures ValidImportForm(f) && (storageFails || parse(f.date).None?) ==>
      o == Failed(StorageError) && store.db == old(store.db) && store.nextId == old(store.nextId)
    ensures ValidImportForm(f) && !storageFails && parse(f.date).Some? ==>
      && o == Success
      && store.db == Imported(old(store.db), f, parse(f.date).value, now, old(store.nextId))
      && store.nextId == old(store.nextId) + |f.transformers| + 1
  {
    if !ValidImportForm(f) {
      return Failed(InvalidInput);
    }
    var date := parse(f.date);
    if storageFails || date.None? {
      return Failed(StorageError);
    }
    var id := store.CreateWithUnits(ImportRow(f, date.value, now), f.transformers, now, false);
    o := Success;
  }
}
