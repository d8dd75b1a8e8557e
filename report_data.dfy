/** getDailyReportData of app/actions/get-report-data.ts: the dispatches dated within one day,
    with their units, oldest first, split into imports and exports. */
module ReportData {
  import opened Seqs
  import opened Model
  import opened ReportByIds

  /** The query's `date: { gte: startOfDay, lte: endOfDay }`. */
  function InWindow(lo: int, hi: int): Dispatch -> bool
  {
    (d: Dispatch) => lo <= d.date <= hi
  }

  function DispatchDate(d: Dispatch): int
  {
    d.date
  }

  function GroupDate(g: DispatchWithUnits): int
  {
    g.dispatch.date
  }

  /** `include: { transformers: true }`: each dispatch paired with its units, in order. */
  function AllWithUnits(db: Db, ds: seq<Dispatch>): (r: seq<DispatchWithUnits>)
    ensures |r| == |ds|
    ensures forall i :: 0 <= i < |ds| ==> r[i] == WithUnits(db, ds[i])
    ensures forall g :: g in r <==> g.dispatch in ds && g == WithUnits(db, g.dispatch)
  {
    var r := seq(|ds|, i requires 0 <= i < |ds| => WithUnits(db, ds[i]));
    assert forall g: DispatchWithUnits :: g.dispatch in ds && g == WithUnits(db, g.dispatch) ==> g in r by {
      forall g: DispatchWithUnits | g.dispatch in ds && g == WithUnits(db, g.dispatch) ensures g in r {
        var i :| 0 <= i < |ds| && ds[i] == g.dispatch;
        assert r[i] == g;
      }
    }
    r
  }

  /** `dispatch.findMany` with the window, `include: { transformers: true }` and
      `orderBy: { date: 'asc' }`: every dispatch of the window, each once, with its units, oldest
      first (dispatches with the same date keep store order). */
  function DayDispatches(db: Db, lo: int, hi: int): (r: seq<DispatchWithUnits>)
    ensures forall g :: g in r <==> g.dispatch in db.dispatches && lo <= g.dispatch.date <= hi && g == WithUnits(db, g.dispatch)
    ensures SortedBy(r, GroupDate)
  {
    var inDay := Filter(db.dispatches, InWindow(lo, hi));
    var ds := SortBy(inDay, DispatchDate);
    SortByMembers(inDay, DispatchDate);
    AllWithUnits(db, ds)
  }

  /** getDailyReportData. `dayStart` and `dayEnd` stand for `setHours(0, 0, 0, 0)` and
      `setHours(23, 59, 59, 999)` in local time. A storage error answers failure; otherwise every
      listed dispatch lies in the day's window and carries exactly its own units, the imports
      are exactly the window's IMPORT dispatches and the exports exactly its EXPORT ones, so a
      dispatch of any other type is in neither list. */
  function GetDailyReportData(snap: Snapshot, date: int, dayStart: int -> int, dayEnd: int -> int): (r: ReportResult)
    ensures snap.Unavailable? <==> r == ReportFailed
    ensures snap.Available? ==> forall g: DispatchWithUnits ::
      && (g in r.report.imports <==>
            g.dispatch in snap.db.dispatches && dayStart(date) <= g.dispatch.date <= dayEnd(date)
            && g.dispatch.dispatchType == Import && g == WithUnits(snap.db, g.dispatch))
      && (g in r.report.exports <==>
            g.dispatch in snap.db.dispatches && dayStart(date) <= g.dispatch.date <= dayEnd(date)
            && g.dispatch.dispatchType == Export && g == WithUnits(snap.db, g.dispatch))
  {
    match snap
    case Unavailable => ReportFailed
    case Available(db) => ReportOk(Split(DayDispatches(db, dayStart(date), dayEnd(date))))
  }

  /** Both lists keep the ascending date order of the query. */
  lemma DailyReportOrdered(db: Db, date: int, dayStart: int -> int, dayEnd: int -> int)
    ensures var r := GetDailyReportData(Available(db), date, dayStart, dayEnd).report;
      SortedBy(r.imports, GroupDate) && SortedBy(r.exports, GroupDate)
  {
    var gs := DayDispatches(db, dayStart(date), dayEnd(date));
    FilterSorted(gs, IsImportGroup, GroupDate);
    FilterSorted(gs, IsExportGroup, GroupDate);
  }
}
