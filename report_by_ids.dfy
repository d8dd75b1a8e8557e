/** getReportDataByIds of app/actions/get-report-by-ids.ts: fetch the selected units with their
    dispatches, in ascending dispatch date, group them back under their dispatches in a `Map`
    (first appearance decides the order), and split the groups into imports and exports. */
module ReportByIds {
  import opened Seqs
  import opened Model
  import opened Grouping

  /** The two lists a report is built from. */
  datatype Report = Report(imports: seq<DispatchWithUnits>, exports: seq<DispatchWithUnits>)

  /** `{ success: true, data }`, or `{ success: false, error }` after a storage error. */
  datatype ReportResult = ReportOk(report: Report) | ReportFailed

  /** The date the fetch orders a unit by: its dispatch's. */
  function ByDispatchDate(db: Db): Transformer -> int
  {
    (t: Transformer) => match DispatchOf(db, t) case Some(d) => d.date case None => 0
  }

  function RowDate(x: UnitWithDispatch): int
  {
    x.dispatch.date
  }

  function DispatchIdOf(x: UnitWithDispatch): Id
  {
    x.dispatch.id
  }

  function Requested(ids: seq<Id>): Transformer -> bool
  {
    (t: Transformer) => t.id in ids
  }

  /** `transformer.findMany({ where: { id: { in: ids } }, include: { dispatch: true },
      orderBy: { dispatch: { date: 'asc' } } })`. Units with the same date keep store order. */
  function Fetched(db: Db, ids: seq<Id>): (r: seq<UnitWithDispatch>)
    ensures forall x :: x in r ==>
      && x.unit in db.transformers && x.unit.id in ids
      && x.dispatch in db.dispatches && x.dispatch.id == x.unit.dispatchId
    ensures SortedBy(r, RowDate)
  {
    var units := SortBy(Filter(db.transformers, Requested(ids)), ByDispatchDate(db));
    SortByMembers(Filter(db.transformers, Requested(ids)), ByDispatchDate(db));
    JoinSorted(db, units);
    Join(db, units)
  }

  /** Joining keeps the order of units sorted by their dispatch's date. */
  lemma {:induction false} JoinSorted(db: Db, ts: seq<Transformer>)
    requires SortedBy(ts, ByDispatchDate(db))
    ensures SortedBy(Join(db, ts), RowDate)
  {
    if ts != [] {
      SortedTail(ts, ByDispatchDate(db));
      JoinSorted(db, ts[1..]);
    }
  }

  /** In a well-formed store every requested unit is fetched. */
  lemma FetchedAll(db: Db, ids: seq<Id>, t: Transformer)
    requires WellFormed(db) && t in db.transformers && t.id in ids
    ensures exists x :: x in Fetched(db, ids) && x.unit == t
  {
    var requested := Filter(db.transformers, Requested(ids));
    var sorted := SortBy(requested, ByDispatchDate(db));
    assert forall u :: u in sorted <==> u in requested by {
      SortByMembers(requested, ByDispatchDate(db));
    }
    assert forall u :: u in sorted ==> u.dispatchId in DispatchIds(db);
    JoinKeepsAll(db, sorted);
    assert Requested(ids)(t);
    assert t in sorted;
    var i :| 0 <= i < |sorted| && sorted[i] == t;
    var rows := Join(db, sorted);
    assert rows[i] in rows && rows[i].unit == t;
  }

  /** The units of some fetched rows, in row order. */
  function UnitsIn(rows: seq<UnitWithDispatch>): (ts: seq<Transformer>)
    ensures |ts| == |rows|
    ensures forall i :: 0 <= i < |rows| ==> ts[i] == rows[i].unit
  {
    seq(|rows|, i requires 0 <= i < |rows| => rows[i].unit)
  }

  lemma UnitsInSnoc(rows: seq<UnitWithDispatch>, x: UnitWithDispatch)
    ensures UnitsIn(rows + [x]) == UnitsIn(rows) + [x.unit]
  {
  }

  /** The map entry of dispatch `k`: the dispatch row of the first unit fetched for it, and
      every unit fetched for it, in fetch order. */
  function GroupOf(rows: seq<UnitWithDispatch>, k: Id): DispatchWithUnits
    requires k in Keys(rows, DispatchIdOf)
  {
    DispatchWithUnits(First(rows, DispatchIdOf, k).dispatch, UnitsIn(Members(rows, DispatchIdOf, k)))
  }

  /** `Array.from(dispatchMap.values())`: one entry per dispatch, in order of first appearance. */
  function Grouped(rows: seq<UnitWithDispatch>): (gs: seq<DispatchWithUnits>)
    ensures |gs| == |Keys(rows, DispatchIdOf)|
    ensures forall i :: 0 <= i < |gs| ==> gs[i] == GroupOf(rows, Keys(rows, DispatchIdOf)[i])
  {
    var ks := Keys(rows, DispatchIdOf);
    seq(|ks|, i requires 0 <= i < |ks| => GroupOf(rows, ks[i]))
  }

  /** A later unit of another dispatch leaves a group as it was. */
  lemma GroupOfOther(s: seq<UnitWithDispatch>, x: UnitWithDispatch, k: Id)
    requires k in Keys(s, DispatchIdOf) && k != x.dispatch.id
    ensures k in Keys(s + [x], DispatchIdOf)
    ensures GroupOf(s + [x], k) == GroupOf(s, k)
  {
    FirstSnoc(s, x, DispatchIdOf, k);
    MembersSnoc(s, x, DispatchIdOf, k);
  }

  /** `dispatchMap` and its key order after the `forEach` has seen the rows `s`. */
  ghost predicate MapHolds(s: seq<UnitWithDispatch>, m: map<Id, DispatchWithUnits>, order: seq<Id>)
  {
    && order == Keys(s, DispatchIdOf)
    && (forall k :: k in m <==> k in order)
    && forall k :: k in order ==> m[k] == GroupOf(s, k)
  }

  /** The entry the `forEach` body leaves for the unit's own dispatch `k`: the one created just
      before (`m` lacks `k`) or the existing one, with the unit pushed. */
  function Pushed(m: map<Id, DispatchWithUnits>, x: UnitWithDispatch): DispatchWithUnits
  {
    var entry := if x.dispatch.id in m then m[x.dispatch.id] else DispatchWithUnits(x.dispatch, []);
    entry.(transformers := entry.transformers + [x.unit])
  }

  /** The pushed entry is the group of the unit's dispatch over the rows seen so far: the
      entry created for it holds just it, an existing entry grows by it. */
  lemma PushedIsGroup(s: seq<UnitWithDispatch>, x: UnitWithDispatch, m: map<Id, DispatchWithUnits>, order: seq<Id>)
    requires MapHolds(s, m, order)
    ensures x.dispatch.id in Keys(s + [x], DispatchIdOf)
    ensures Pushed(m, x) == GroupOf(s + [x], x.dispatch.id)
  {
    var k := x.dispatch.id;
    if k in order {
      FirstSnoc(s, x, DispatchIdOf, k);
      MembersSnoc(s, x, DispatchIdOf, k);
      UnitsInSnoc(Members(s, DispatchIdOf, k), x);
      assert m[k] == GroupOf(s, k);
    } else {
      NewKeySnoc(s, x, DispatchIdOf);
    }
  }

  /** The key order after the body: a new dispatch's id is appended. */
  function NextOrder(m: map<Id, DispatchWithUnits>, order: seq<Id>, x: UnitWithDispatch): seq<Id>
  {
    if x.dispatch.id in m then order else order + [x.dispatch.id]
  }

  /** The body keeps the map's keys equal to the first-appearance order of the dispatches. */
  lemma KeysStep(s: seq<UnitWithDispatch>, x: UnitWithDispatch, m: map<Id, DispatchWithUnits>, order: seq<Id>)
    requires MapHolds(s, m, order)
    ensures NextOrder(m, order, x) == Keys(s + [x], DispatchIdOf)
    ensures forall j :: j in m[x.dispatch.id := Pushed(m, x)] <==> j in NextOrder(m, order, x)
  {
    KeysSnoc(s, x, DispatchIdOf);
  }

  /** The body leaves every entry equal to its group over the rows seen so far. */
  lemma EntriesStep(s: seq<UnitWithDispatch>, x: UnitWithDispatch, m: map<Id, DispatchWithUnits>, order: seq<Id>)
    requires MapHolds(s, m, order)
    requires NextOrder(m, order, x) == Keys(s + [x], DispatchIdOf)
    ensures forall j :: j in NextOrder(m, order, x) ==> m[x.dispatch.id := Pushed(m, x)][j] == GroupOf(s + [x], j)
  {
    var k := x.dispatch.id;
    forall j | j in NextOrder(m, order, x) ensures m[k := Pushed(m, x)][j] == GroupOf(s + [x], j) {
      if j == k {
        PushedIsGroup(s, x, m, order);
      } else {
        GroupOfOther(s, x, j);
      }
    }
  }

  /** The body of the `forEach` keeps `MapHolds`: the unit's entry becomes `Pushed`, and a key
      is appended to the order when the entry is new. */
  lemma MapStep(s: seq<UnitWithDispatch>, x: UnitWithDispatch, m: map<Id, DispatchWithUnits>, order: seq<Id>)
    requires MapHolds(s, m, order)
    ensures MapHolds(s + [x], m[x.dispatch.id := Pushed(m, x)], NextOrder(m, order, x))
  {
    KeysStep(s, x, m, order);
    EntriesStep(s, x, m, order);
  }

  /** The `forEach` that fills `dispatchMap`. `order` is the map's key order, which JavaScript
      keeps as insertion order. */
  method GroupByDispatch(rows: seq<UnitWithDispatch>) returns (dispatches: seq<DispatchWithUnits>)
    ensures dispatches == Grouped(rows)
  {
    var dispatchMap: map<Id, DispatchWithUnits> := map[];
    var order: seq<Id> := [];
    for i := 0 to |rows|
      invariant MapHolds(rows[..i], dispatchMap, order)
    {
      var x := rows[i];
      var id := x.dispatch.id;
      assert rows[..i + 1] == rows[..i] + [x];
      MapStep(rows[..i], x, dispatchMap, order);
      if id !in dispatchMap {
        dispatchMap := dispatchMap[id := DispatchWithUnits(x.dispatch, [])];
        order := order + [id];
      }
      var entry := dispatchMap[id];
      dispatchMap := dispatchMap[id := entry.(transformers := entry.transformers + [x.unit])];
    }
    assert rows[..|rows|] == rows;
    dispatches := seq(|order|, j requires 0 <= j < |order| => dispatchMap[order[j]]);
  }

  predicate IsImportGroup(g: DispatchWithUnits)
  {
    g.dispatch.dispatchType == Import
  }

  predicate IsExportGroup(g: DispatchWithUnits)
  {
    g.dispatch.dispatchType == Export
  }

  /** The two `filter`s on the dispatch type. */
  function Split(gs: seq<DispatchWithUnits>): (r: Report)
    ensures forall g :: g in r.imports <==> g in gs && g.dispatch.dispatchType == Import
    ensures forall g :: g in r.exports <==> g in gs && g.dispatch.dispatchType == Export
  {
    Report(Filter(gs, IsImportGroup), Filter(gs, IsExportGroup))
  }

  /** getReportDataByIds. An absent or empty id list answers two empty lists without reading
      the store; otherwise a storage error answers failure. */
  method GetReportDataByIds(snap: Snapshot, ids: Option<seq<Id>>) returns (r: ReportResult)
    ensures (ids.None? || ids.value == []) ==> r == ReportOk(Report([], []))
    ensures ids.Some? && ids.value != [] && snap.Unavailable? ==> r == ReportFailed
    ensures ids.Some? && ids.value != [] && snap.Available? ==>
      r == ReportOk(Split(Grouped(Fetched(snap.db, ids.value))))
  {
    if ids.None? || |ids.value| == 0 {
      return ReportOk(Report([], []));
    }
    if snap.Unavailable? {
      return ReportFailed;
    }
    var rows := Fetched(snap.db, ids.value);
    var dispatches := GroupByDispatch(rows);
    r := ReportOk(Split(dispatches));
  }

  /** A unit is in the group of `k` exactly when some row of dispatch `k` carries it. */
  lemma InGroup(rows: seq<UnitWithDispatch>, k: Id, t: Transformer)
    ensures t in UnitsIn(Members(rows, DispatchIdOf, k)) <==> exists x :: x in rows && x.unit == t && x.dispatch.id == k
  {
    var ms := Members(rows, DispatchIdOf, k);
    var us := UnitsIn(ms);
    if t in us {
      var p :| 0 <= p < |us| && us[p] == t;
      assert ms[p] in ms;
    }
    if exists x :: x in rows && x.unit == t && x.dispatch.id == k {
      var x :| x in rows && x.unit == t && x.dispatch.id == k;
      assert x in ms;
      var p :| 0 <= p < |ms| && ms[p] == x;
      assert us[p] == t;
    }
  }

  /** The group of dispatch `k` is that dispatch's row and holds exactly the requested units
      of that dispatch (in a well-formed store, where no unit lacks its dispatch). */
  lemma GroupContents(db: Db, ids: seq<Id>, k: Id)
    requires WellFormed(db) && k in Keys(Fetched(db, ids), DispatchIdOf)
    ensures var g := GroupOf(Fetched(db, ids), k);
      && g.dispatch in db.dispatches && g.dispatch.id == k
      && forall t :: t in g.transformers <==> t in db.transformers && t.id in ids && t.dispatchId == k
  {
    var rows := Fetched(db, ids);
    forall t ensures t in UnitsIn(Members(rows, DispatchIdOf, k)) <==> t in db.transformers && t.id in ids && t.dispatchId == k {
      InGroup(rows, k, t);
      if t in db.transformers && t.id in ids && t.dispatchId == k {
        FetchedAll(db, ids, t);
      }
    }
  }

  /** No dispatch has two groups. */
  lemma GroupsDistinct(rows: seq<UnitWithDispatch>)
    ensures var gs := Grouped(rows);
      forall i, j :: 0 <= i < j < |gs| ==> gs[i].dispatch.id != gs[j].dispatch.id
  {
    var ks := Keys(rows, DispatchIdOf);
    forall i | 0 <= i < |ks| ensures Grouped(rows)[i].dispatch.id == ks[i] {
      assert ks[i] in ks;
      MembersOfKey(rows, DispatchIdOf, ks[i]);
    }
  }

  /** Each group is a dispatch of the store and holds exactly the requested units of that
      dispatch. */
  lemma GroupsAreDispatches(db: Db, ids: seq<Id>)
    requires WellFormed(db)
    ensures forall g :: g in Grouped(Fetched(db, ids)) ==>
      && g.dispatch in db.dispatches
      && forall t :: t in g.transformers <==>
           t in db.transformers && t.id in ids && t.dispatchId == g.dispatch.id
  {
    var gs := Grouped(Fetched(db, ids));
    var ks := Keys(Fetched(db, ids), DispatchIdOf);
    forall g | g in gs
      ensures g.dispatch in db.dispatches
      ensures forall t :: t in g.transformers <==>
        t in db.transformers && t.id in ids && t.dispatchId == g.dispatch.id
    {
      var i :| 0 <= i < |gs| && gs[i] == g;
      assert ks[i] in ks;
      GroupContents(db, ids, ks[i]);
    }
  }

  /** Groups come in ascending order of their dispatch's date, and every fetched unit lands in
      exactly one of them: the group sizes add up to the number of fetched units. */
  lemma GroupsOrderedAndComplete(db: Db, ids: seq<Id>)
    ensures var gs := Grouped(Fetched(db, ids));
      && (forall i, j :: 0 <= i < j < |gs| ==> gs[i].dispatch.date <= gs[j].dispatch.date)
      && GroupSizes(Fetched(db, ids), DispatchIdOf, Keys(Fetched(db, ids), DispatchIdOf)) == |Fetched(db, ids)|
  {
    var rows := Fetched(db, ids);
    FirstsSorted(rows, DispatchIdOf, RowDate);
    GroupsPartition(rows, DispatchIdOf);
  }
}
