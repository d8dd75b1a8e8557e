/** getUnlinkedTtrs of app/actions/get-unlinked-ttrs.ts: the provisional submissions (TTr) not
    yet linked to an official letter, of either direction. */
module UnlinkedTtrs {
  import opened Seqs
  import opened Model

  /** The query's `where`: a TTr whose `linkedCvId` is null. The type is not filtered. */
  predicate IsUnlinkedTtr(d: Dispatch)
  {
    d.documentType == TTr && d.linkedCvId.None?
  }

  /** The matching dispatches, latest `date` first. */
  function UnlinkedTtrs(db: Db): (r: seq<Dispatch>)
    ensures forall d :: d in r <==> d in db.dispatches && IsUnlinkedTtr(d)
    ensures forall i, j :: 0 <= i < j < |r| ==> r[i].date >= r[j].date
  {
    var matching := Filter(db.dispatches, IsUnlinkedTtr);
    SortByMembers(matching, (d: Dispatch) => -d.date);
    SortBy(matching, (d: Dispatch) => -d.date)
  }

  /** The action's `{ success, data }` reply. */
  datatype TtrList = TtrList(success: bool, data: seq<DispatchWithUnits>)

  /** getUnlinkedTtrs: each unlinked TTr with its units; a storage error gives
      `success: false` and no data. */
  function GetUnlinkedTtrs(snap: Snapshot): (r: TtrList)
    ensures snap.Unavailable? ==> r == TtrList(false, [])
    ensures snap.Available? ==>
      var ds := UnlinkedTtrs(snap.db);
      && r.success && |r.data| == |ds|
      && forall i :: 0 <= i < |ds| ==> r.data[i] == WithUnits(snap.db, ds[i])
  {
    match snap
    case Unavailable => TtrList(false, [])
    case Available(db) =>
      var ds := UnlinkedTtrs(db);
      TtrList(true, seq(|ds|, i requires 0 <= i < |ds| => WithUnits(db, ds[i])))
  }

  /** Every listed entry is a TTr with no linked letter, and every such dispatch is listed,
      whether it is an import or an export. */
  lemma UnlinkedListedWhateverType(db: Db, d: Dispatch)
    requires d in db.dispatches
    ensures (exists x :: x in GetUnlinkedTtrs(Available(db)).data && x.dispatch == d) <==> IsUnlinkedTtr(d)
  {
    var ds := UnlinkedTtrs(db);
    var data := GetUnlinkedTtrs(Available(db)).data;
    if IsUnlinkedTtr(d) {
      var i :| 0 <= i < |ds| && ds[i] == d;
      assert data[i] in data;
    } else {
      forall x | x in data ensures x.dispatch != d {
        var i :| 0 <= i < |data| && data[i] == x;
        assert ds[i] in ds;
      }
    }
  }
}
