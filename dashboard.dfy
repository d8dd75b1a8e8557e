/** getDashboardStats of app/actions/dashboard.ts: unit counts per direction, their plain
    difference, and the twenty most recently recorded units with their dispatch details. */
module Dashboard {
  import opened Seqs
  import opened Model

  /** The relation filter `where: { dispatch: { type } }`: the unit's dispatch has that type. */
  predicate UnitOfType(db: Db, t: Transformer, ty: DispatchType)
  {
    match DispatchOf(db, t)
    case Some(d) => d.dispatchType == ty
    case None => false
  }

  /** `transformer.count` with that filter, over the units `ts`. */
  function CountOfType(db: Db, ts: seq<Transformer>, ty: DispatchType): (n: nat)
    ensures n <= |ts|
    ensures n == 0 <==> forall t :: t in ts ==> !UnitOfType(db, t, ty)
  {
    if ts == [] then 0
    else (if UnitOfType(db, ts[0], ty) then 1 else 0) + CountOfType(db, ts[1..], ty)
  }

  /** The count is the number of units a type filter keeps. */
  lemma {:induction false} CountIsFilterLength(db: Db, ts: seq<Transformer>, ty: DispatchType)
    ensures CountOfType(db, ts, ty) == |Filter(ts, (t: Transformer) => UnitOfType(db, t, ty))|
  {
    if ts != [] {
      CountIsFilterLength(db, ts[1..], ty);
    }
  }

  /** Counting over two runs of units adds up. */
  lemma {:induction false} CountAppend(db: Db, a: seq<Transformer>, b: seq<Transformer>, ty: DispatchType)
    ensures CountOfType(db, a + b, ty) == CountOfType(db, a, ty) + CountOfType(db, b, ty)
  {
    if a == [] {
      assert a + b == b;
    } else {
      assert (a + b)[1..] == a[1..] + b;
      CountAppend(db, a[1..], b, ty);
    }
  }

  /** No unit is counted both as imported and exported: the two counts together never exceed
      the number of units. */
  lemma {:induction false} CountsDisjoint(db: Db, ts: seq<Transformer>)
    ensures CountOfType(db, ts, Import) + CountOfType(db, ts, Export) <= |ts|
  {
    if ts != [] {
      CountsDisjoint(db, ts[1..]);
    }
  }

  datatype Stats = Stats(totalImported: nat, totalExported: nat, unreturned: int)

  /** The three counters; `unreturned` is the plain difference, not clamped at zero. */
  function StatsOf(db: Db): (s: Stats)
    ensures s.totalImported == CountOfType(db, db.transformers, Import)
    ensures s.totalExported == CountOfType(db, db.transformers, Export)
    ensures s.unreturned + s.totalExported == s.totalImported
  {
    var imported := CountOfType(db, db.transformers, Import);
    var exported := CountOfType(db, db.transformers, Export);
    Stats(imported, exported, imported - exported)
  }

  function NewestFirst(t: Transformer): int
  {
    -t.createdAt
  }

  /** `findMany({ take: 20, orderBy: { createdAt: 'desc' }, include: { dispatch: true } })`. */
  function RecentUnits(db: Db): (r: seq<UnitWithDispatch>)
    ensures |r| <= 20
    ensures forall i, j :: 0 <= i < j < |r| ==> r[i].unit.createdAt >= r[j].unit.createdAt
    ensures forall x :: x in r ==> x.unit in db.transformers && x.dispatch in db.dispatches && x.dispatch.id == x.unit.dispatchId
  {
    var sorted := SortBy(db.transformers, NewestFirst);
    SortByMembers(db.transformers, NewestFirst);
    var newest := Take(sorted, 20);
    assert SortedBy(newest, NewestFirst);
    RecentSorted(db, newest);
    Join(db, newest)
  }

  lemma {:induction false} RecentSorted(db: Db, ts: seq<Transformer>)
    requires SortedBy(ts, NewestFirst)
    ensures SortedBy(Join(db, ts), (x: UnitWithDispatch) => NewestFirst(x.unit))
  {
    if ts != [] {
      SortedTail(ts, NewestFirst);
      RecentSorted(db, ts[1..]);
      var key := (x: UnitWithDispatch) => NewestFirst(x.unit);
      var rest := Join(db, ts[1..]);
      if DispatchOf(db, ts[0]).Some? {
        assert forall y :: y in rest ==> key(UnitWithDispatch(ts[0], DispatchOf(db, ts[0]).value)) <= key(y);
        SortedCons(UnitWithDispatch(ts[0], DispatchOf(db, ts[0]).value), rest, key);
      }
    }
  }

  /** In a well-formed store no recent unit is dropped by the join: entry `i` is the `i`-th
      newest unit. */
  lemma RecentKeepsAll(db: Db)
    requires WellFormed(db)
    ensures var sorted := SortBy(db.transformers, NewestFirst);
      && |RecentUnits(db)| == |Take(sorted, 20)|
      && forall i :: 0 <= i < |RecentUnits(db)| ==> RecentUnits(db)[i].unit == sorted[i]
  {
    var sorted := SortBy(db.transformers, NewestFirst);
    SortByMembers(db.transformers, NewestFirst);
    var newest := Take(sorted, 20);
    assert forall u :: u in newest ==> u.dispatchId in DispatchIds(db) by {
      forall u | u in newest ensures u.dispatchId in DispatchIds(db) {
        var i :| 0 <= i < |newest| && newest[i] == u;
        assert sorted[i] in sorted;
      }
    }
    JoinKeepsAll(db, newest);
  }

  /** In a well-formed store the list holds the twenty newest units (all of them when there
      are fewer), and a unit left out is no newer than any listed one. */
  lemma RecentAreNewest(db: Db, t: Transformer)
    requires WellFormed(db) && t in db.transformers
    ensures |RecentUnits(db)| == if |db.transformers| < 20 then |db.transformers| else 20
    ensures (exists x :: x in RecentUnits(db) && x.unit == t)
      || forall x :: x in RecentUnits(db) ==> t.createdAt <= x.unit.createdAt
  {
    var sorted := SortBy(db.transformers, NewestFirst);
    var r := RecentUnits(db);
    assert |r| == |Take(sorted, 20)| && forall i :: 0 <= i < |r| ==> r[i].unit == sorted[i] by {
      RecentKeepsAll(db);
    }
    assert t in sorted by {
      SortByMembers(db.transformers, NewestFirst);
    }
    var p :| 0 <= p < |sorted| && sorted[p] == t;
    if p < |r| {
      assert r[p] in r && r[p].unit == t;
    } else {
      forall x | x in r ensures t.createdAt <= x.unit.createdAt {
        var i :| 0 <= i < |r| && r[i] == x;
        SortedAt(sorted, NewestFirst, i, p);
      }
    }
  }

  /** One entry of `recentTransformers`: the unit's own fields and its dispatch's. */
  datatype RecentRow = RecentRow(
    id: Id,
    dispatchId: Id,
    serialNumber: string,
    capacity: Option<string>,
    model: Option<string>,
    note: Option<string>,
    dispatchNumber: Option<string>,
    date: int,
    dispatchType: DispatchType)

  /** `e` shows unit `x.unit` with the id, number, date and type of its dispatch `x.dispatch`. */
  predicate Shows(e: RecentRow, x: UnitWithDispatch)
  {
    && e.id == x.unit.id && e.serialNumber == x.unit.serialNumber && e.capacity == x.unit.capacity
    && e.model == x.unit.model && e.note == x.unit.note
    && e.dispatchId == x.dispatch.id && e.dispatchNumber == x.dispatch.dispatchNumber
    && e.date == x.dispatch.date && e.dispatchType == x.dispatch.dispatchType
  }

  function RowOf(x: UnitWithDispatch): (e: RecentRow)
    ensures Shows(e, x)
  {
    RecentRow(x.unit.id, x.dispatch.id, x.unit.serialNumber, x.unit.capacity, x.unit.model, x.unit.note,
              x.dispatch.dispatchNumber, x.dispatch.date, x.dispatch.dispatchType)
  }

  datatype DashboardResult = DashboardOk(stats: Stats, recent: seq<RecentRow>) | DashboardFailed

  /** getDashboardStats: a storage error answers failure; otherwise the counters, and each
      recent unit's row carries that unit's fields with its own dispatch's id, number, date
      and type, newest first. */
  function GetDashboardStats(snap: Snapshot): (r: DashboardResult)
    ensures snap.Unavailable? <==> r == DashboardFailed
    ensures snap.Available? ==>
      var xs := RecentUnits(snap.db);
      && r.stats == StatsOf(snap.db)
      && |r.recent| == |xs| <= 20
      && forall i :: 0 <= i < |xs| ==> Shows(r.recent[i], xs[i]) && r.recent[i].dispatchId == xs[i].unit.dispatchId
  {
    match snap
    case Unavailable => DashboardFailed
    case Available(db) =>
      var xs := RecentUnits(db);
      DashboardOk(StatsOf(db), seq(|xs|, i requires 0 <= i < |xs| => RowOf(xs[i])))
  }

  /** More exported than imported units make `unreturned` negative: one export unit and nothing
      else gives -1. */
  lemma UnreturnedCanBeNegative()
    ensures var d := Dispatch(0, Some("X"), "", Export, CV, false, 0, None, None, None, None, 0);
      var db := Db([d], [Transformer(1, 0, "S1", None, None, None, None, None, false, 0)]);
      StatsOf(db).unreturned == -1
  {
    var d := Dispatch(0, Some("X"), "", Export, CV, false, 0, None, None, None, None, 0);
    var t := Transformer(1, 0, "S1", None, None, None, None, None, false, 0);
    var db := Db([d], [t]);
    assert FindDispatch(db, 0) == Some(d);
    assert UnitOfType(db, t, Export);
  }
}
