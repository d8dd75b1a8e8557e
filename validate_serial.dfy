/** The duplicate-serial guard of app/actions/validate-serial.ts: which of the serial numbers
    about to be entered already sit on a dispatch of the same type. Advisory only; the caller
    warns and lets the user go on. */
module ValidateSerial {
  import opened Seqs
  import opened Model

  /** One warning: the serial, and the number and type of the dispatch that already holds it. */
  datatype Duplicate = Duplicate(serialNumber: string, dispatchNumber: Option<string>, dispatchType: DispatchType)

  /** The query's `OR` on the unit: no test result, a PASS, or not yet processed. */
  predicate StillCounts(t: Transformer)
  {
    t.testResult == None || t.testResult == Some(Pass) || !t.isProcessed
  }

  /** Only a unit that FAILED testing and has been processed is exempt. */
  lemma StillCountsUnlessFailedAndProcessed(t: Transformer)
    ensures StillCounts(t) <==> !(t.testResult == Some(Fail) && t.isProcessed)
  {
    match t.testResult
    case None =>
    case Some(r) => assert r == Pass || r == Fail;
  }

  /** The `where` clause: serial in the list, owned by a non-CBM dispatch of the same type. */
  predicate IsConflict(db: Db, serials: seq<string>, currentType: DispatchType, t: Transformer)
  {
    && t.serialNumber in serials
    && StillCounts(t)
    && match DispatchOf(db, t)
       case Some(d) => d.dispatchType == currentType && !d.isCBM
       case None => false
  }

  /** The conflicting units, in store order. */
  function Conflicts(db: Db, serials: seq<string>, currentType: DispatchType): (r: seq<Transformer>)
    ensures forall t :: t in r <==> t in db.transformers && IsConflict(db, serials, currentType, t)
  {
    Filter(db.transformers, (t: Transformer) => IsConflict(db, serials, currentType, t))
  }

  /** `dup` reports unit `t` with its own dispatch's number and type. */
  predicate Reports(db: Db, dup: Duplicate, t: Transformer)
  {
    && DispatchOf(db, t).Some?
    && dup.serialNumber == t.serialNumber
    && dup.dispatchNumber == DispatchOf(db, t).value.dispatchNumber
    && dup.dispatchType == DispatchOf(db, t).value.dispatchType
  }

  function Report(db: Db, t: Transformer): (dup: Duplicate)
    requires DispatchOf(db, t).Some?
    ensures Reports(db, dup, t)
  {
    var d := DispatchOf(db, t).value;
    Duplicate(t.serialNumber, d.dispatchNumber, d.dispatchType)
  }

  /** checkDuplicateSerials. A CBM document is never checked (no read happens); a storage
      error is swallowed into an empty list; otherwise each conflicting unit yields exactly one
      entry, whose serial is one of the input serials and whose type is `currentType`. */
  function CheckDuplicateSerials(snap: Snapshot, serials: seq<string>, currentType: DispatchType, isCBM: bool)
    : (r: seq<Duplicate>)
    requires currentType == Import || currentType == Export
    ensures isCBM ==> r == []
    ensures snap.Unavailable? ==> r == []
    ensures forall dup :: dup in r ==> dup.serialNumber in serials && dup.dispatchType == currentType
    ensures !isCBM && snap.Available? ==>
      var cs := Conflicts(snap.db, serials, currentType);
      |r| == |cs| && forall i :: 0 <= i < |r| ==> Reports(snap.db, r[i], cs[i])
  {
    if isCBM then []
    else
      match snap
      case Unavailable => []
      case Available(db) =>
        var cs := Conflicts(db, serials, currentType);
        assert forall i :: 0 <= i < |cs| ==> cs[i] in cs;
        var r := seq(|cs|, i requires 0 <= i < |cs| => Report(db, cs[i]));
        assert forall dup :: dup in r ==> dup.serialNumber in serials && dup.dispatchType == currentType by {
          forall dup | dup in r ensures dup.serialNumber in serials && dup.dispatchType == currentType {
            var i :| 0 <= i < |r| && r[i] == dup;
            assert cs[i] in cs;
          }
        }
        r
  }

  /** No entry ever comes from a CBM dispatch, and a unit that failed testing and was processed
      is never reported, whatever its serial. */
  lemma NoCbmNoProcessedFailures(db: Db, serials: seq<string>, currentType: DispatchType, t: Transformer)
    requires t in Conflicts(db, serials, currentType)
    ensures !DispatchOf(db, t).value.isCBM
    ensures !(t.testResult == Some(Fail) && t.isProcessed)
  {
  }

  /** Completeness: a unit with a listed serial on a non-CBM dispatch of the same type that has
      no result, a PASS, or is unprocessed, is reported. */
  lemma ConflictReported(db: Db, serials: seq<string>, currentType: DispatchType, t: Transformer, d: Dispatch)
    requires t in db.transformers && t.serialNumber in serials
    requires DispatchOf(db, t) == Some(d) && d.dispatchType == currentType && !d.isCBM
    requires t.testResult != Some(Fail) || !t.isProcessed
    ensures t in Conflicts(db, serials, currentType)
  {
    StillCountsUnlessFailedAndProcessed(t);
    assert IsConflict(db, serials, currentType, t);
  }
}
