/** updateDispatch of app/actions/update-dispatch.ts: validate the edit form, then a sequence of
    store writes: the dispatch's own fields, the replacement of its units, the re-linking of
    provisional submissions (TTr) to an official letter (CV), and the promotion of a TTr to a
    new CV. The writes are not wrapped in a transaction: a storage fault stops the sequence and
    keeps whatever was already written. */
module UpdateDispatch {
  import opened Seqs
  import opened Model
  import opened Store

  /** The edit form. `id` is `None` when the form carries the empty string. A non-empty
      `sourceDispatchId` is sent to the store as given; an absent one leaves the stored value. */
  datatype UpdateForm = UpdateForm(
    id: Option<Id>, dispatchNumber: string, date: string, transactionDate: Option<string>,
    fileUrl: Option<string>, documentType: Option<DocumentType>, isCBM: Option<bool>,
    linkedTtrIds: seq<Id>, transformers: seq<UnitInput>,
    linkedCvNumber: Option<string>, linkedCvDate: Option<string>, sourceDispatchId: Option<Id>)

  /** The form's schema: non-empty id, number and date, and valid unit rows. */
  predicate ValidUpdateForm(f: UpdateForm)
  {
    f.id.Some? && |f.dispatchNumber| >= 1 && |f.date| >= 1 && ValidRows(f.transformers)
  }

  /** The document kind after the update (the schema defaults it to CV). */
  function Kind(f: UpdateForm): DocumentType
  {
    DocumentTypeOr(f.documentType)
  }

  /** A TTr that names its official letter (number and date both non-empty) is promoted. */
  predicate Promotes(f: UpdateForm)
  {
    Kind(f) == TTr && Truthy(f.linkedCvNumber) && Truthy(f.linkedCvDate)
  }

  /** The store accepts the first write: the dispatch exists, both dates are valid (`parse`
      stands for `new Date`, `None` for an invalid date), and the new source, if any, exists. */
  predicate ScalarsAccepted(db: Db, f: UpdateForm, parse: string -> Option<int>)
  {
    && f.id.Some? && HasDispatch(db, f.id.value)
    && parse(f.date).Some?
    && (Truthy(f.transactionDate) ==> parse(f.transactionDate.value).Some?)
    && RefOk(db, f.sourceDispatchId)
  }

  /** The transaction date to write: `None` (leave the stored one) when the form's is empty. */
  function TxDate(f: UpdateForm, parse: string -> Option<int>): Option<int>
  {
    if Truthy(f.transactionDate) then parse(f.transactionDate.value) else None
  }

  /** The dispatch row after the first write. Type, references to a letter, team and creation
      time are not touched. */
  function Rescalar(d: Dispatch, f: UpdateForm, date: int, tx: Option<int>): Dispatch
  {
    d.(dispatchNumber := Some(f.dispatchNumber), date := date,
       transactionDate := if tx.Some? then tx else d.transactionDate,
       documentType := Kind(f), isCBM := FlagOr(f.isCBM), fileUrl := UrlOr(f.fileUrl),
       sourceDispatchId := if f.sourceDispatchId.Some? then f.sourceDispatchId else d.sourceDispatchId)
  }

  function HasId(id: Id): Dispatch -> bool
  {
    (d: Dispatch) => d.id == id
  }

  function ScalarEdit(f: UpdateForm, date: int, tx: Option<int>): Dispatch -> Dispatch
  {
    (d: Dispatch) => Rescalar(d, f, date, tx)
  }

  /** Write 1: `dispatch.update` of the dispatch's own fields. */
  function WriteScalars(db: Db, f: UpdateForm, parse: string -> Option<int>): Db
    requires ScalarsAccepted(db, f, parse)
  {
    UpdateWhere(db, HasId(f.id.value), ScalarEdit(f, parse(f.date).value, TxDate(f, parse)))
  }

  /** Writes 2 and 3: `deleteMany` of the dispatch's units, then `createMany` of the form's
      rows, test result and image included. */
  function ReplaceUnits(db: Db, id: Id, us: seq<Transformer>): Db
  {
    AddUnits(RemoveUnitsOf(db, id), us)
  }

  function LinkedTo(id: Id): Dispatch -> bool
  {
    (d: Dispatch) => d.linkedCvId == Some(id)
  }

  function LinkableTtr(ids: seq<Id>): Dispatch -> bool
  {
    (d: Dispatch) => d.id in ids && d.documentType == TTr
  }

  function SetLink(link: Option<Id>): Dispatch -> Dispatch
  {
    (d: Dispatch) => d.(linkedCvId := link)
  }

  /** Write 4: every dispatch linked to `id` is unlinked. */
  function ClearLinks(db: Db, id: Id): Db
  {
    UpdateWhere(db, LinkedTo(id), SetLink(None))
  }

  /** Write 5: the listed dispatches that are TTrs are linked to `id`; other ids are ignored. */
  function SetLinks(db: Db, id: Id, ids: seq<Id>): Db
  {
    UpdateWhere(db, LinkableTtr(ids), SetLink(Some(id)))
  }

  /** Writes 4 and 5 as a CV performs them (a TTr performs neither). */
  function Relinked(db: Db, f: UpdateForm, id: Id): Db
  {
    if Kind(f) != CV then db
    else if |f.linkedTtrIds| > 0 then SetLinks(ClearLinks(db, id), id, f.linkedTtrIds)
    else ClearLinks(db, id)
  }

  /** The promoted letter, before the store gives it its id: an IMPORT CV, whatever the TTr's
      own type, with the TTr's file. */
  function CvRow(f: UpdateForm, date: int, now: int): Dispatch
  {
    Dispatch(0, f.linkedCvNumber, UrlOr(f.fileUrl), Import, CV, DefaultIsCBM, date,
             None, None, None, None, now)
  }

  /** Write 7: the TTr is linked to its new letter. */
  function LinkTtr(db: Db, id: Id, cv: Id): Db
  {
    UpdateWhere(db, HasId(id), SetLink(Some(cv)))
  }

  /** The store, the id generator and the reply after the action. */
  datatype Effect = Effect(db: Db, nextId: nat, outcome: Outcome)

  /** The action as a function of the store before it. `fault` is the number (1 to 7) of the
      write a storage fault hits, in the order the writes are issued; any other value means no
      fault. Writes 1 and 6 also throw on the data they are given. */
  function Updated(db: Db, next: nat, f: UpdateForm, parse: string -> Option<int>, now: int, fault: nat): Effect
  {
    if !ValidUpdateForm(f) then Effect(db, next, Failed(InvalidInput))
    else if fault == 1 || !ScalarsAccepted(db, f, parse) then Effect(db, next, Failed(StorageError))
    else UnitsReplaced(WriteScalars(db, f, parse), next, f, f.id.value, parse, now, fault)
  }

  /** Writes 2 to 7, from the store after the first write. */
  function UnitsReplaced(db1: Db, next: nat, f: UpdateForm, id: Id, parse: string -> Option<int>, now: int, fault: nat): Effect
  {
    if fault == 2 then Effect(db1, next, Failed(StorageError))
    else if fault == 3 then Effect(RemoveUnitsOf(db1, id), next, Failed(StorageError))
    else
      var us := NewUnits(f.transformers, id, next, now, true);
      LinksUpdated(ReplaceUnits(db1, id, us), next + |us|, f, id, parse, now, fault)
  }

  /** Writes 4 to 7, from the store after the units were replaced. */
  function LinksUpdated(db3: Db, next3: nat, f: UpdateForm, id: Id, parse: string -> Option<int>, now: int, fault: nat): Effect
  {
    if Kind(f) == CV && fault == 4 then Effect(db3, next3, Failed(StorageError))
    else if Kind(f) == CV && |f.linkedTtrIds| > 0 && fault == 5 then
      Effect(ClearLinks(db3, id), next3, Failed(StorageError))
    else if !Promotes(f) then Effect(Relinked(db3, f, id), next3, Success)
    else Promoted(Relinked(db3, f, id), next3, f, id, parse, now, fault)
  }

  /** The new letter's date, read as `new Date` reads it (`None` for an invalid date). */
  function LetterDate(f: UpdateForm, parse: string -> Option<int>): Option<int>
    requires f.linkedCvDate.Some?
  {
    parse(f.linkedCvDate.value)
  }

  /** Writes 6 and 7: the new letter with copies of the units, then the TTr's link to it. */
  function Promoted(db5: Db, next5: nat, f: UpdateForm, id: Id, parse: string -> Option<int>, now: int, fault: nat): Effect
    requires Promotes(f)
  {
    if fault == 6 || LetterDate(f, parse).None? then Effect(db5, next5, Failed(StorageError))
    else
      var cv := next5;
      var db6 := InsertDispatch(db5, CvRow(f, LetterDate(f, parse).value, now).(id := cv),
                                NewUnits(f.transformers, cv, cv + 1, now, false));
      Linked(db6, cv + |f.transformers| + 1, id, cv, fault)
  }

  /** Write 7, from the store holding the new letter `cv`. */
  function Linked(db6: Db, next6: nat, id: Id, cv: Id, fault: nat): Effect
  {
    if fault == 7 then Effect(db6, next6, Failed(StorageError))
    else Effect(LinkTtr(db6, id, cv), next6, Success)
  }

  // ---- the writes, one at a time ----

  lemma WriteScalarsEffect(db: Db, f: UpdateForm, parse: string -> Option<int>, bound: nat)
    requires WellFormed(db) && IdsBelow(db, bound) && ScalarsAccepted(db, f, parse)
    ensures var r := WriteScalars(db, f, parse);
      && WellFormed(r) && IdsBelow(r, bound) && DispatchIds(r) == DispatchIds(db)
      && r.transformers == db.transformers
      && FindDispatch(r, f.id.value)
         == Some(Rescalar(FindDispatch(db, f.id.value).value, f, parse(f.date).value, TxDate(f, parse)))
  {
    var edit := ScalarEdit(f, parse(f.date).value, TxDate(f, parse));
    UpdateWhereKeepsValid(db, HasId(f.id.value), edit, bound);
    FindAfterUpdateWhere(db, HasId(f.id.value), edit, FindDispatch(db, f.id.value).value);
  }

  lemma ReplaceUnitsEffect(db: Db, id: Id, us: seq<Transformer>, bound: nat)
    requires WellFormed(db) && IdsBelow(db, bound) && id in DispatchIds(db) && FreshUnits(us, id, bound)
    ensures var r := ReplaceUnits(db, id, us);
      && WellFormed(r) && IdsBelow(r, bound + |us|) && DispatchIds(r) == DispatchIds(db)
      && r.dispatches == db.dispatches
      && UnitsOf(r, id) == us
      && forall k :: k != id ==> UnitsOf(r, k) == UnitsOf(db, k)
  {
    RemoveUnitsKeepsValid(db, id, bound);
    RemoveUnitsOfEffect(db, id);
    AddUnitsKeepsValid(RemoveUnitsOf(db, id), us, id, bound);
  }

  lemma ClearLinksEffect(db: Db, id: Id, bound: nat)
    requires WellFormed(db) && IdsBelow(db, bound)
    ensures var r := ClearLinks(db, id);
      && WellFormed(r) && IdsBelow(r, bound) && DispatchIds(r) == DispatchIds(db)
      && forall e :: e in r.dispatches ==> e.linkedCvId != Some(id)
  {
    UpdateWhereKeepsValid(db, LinkedTo(id), SetLink(None), bound);
    var r := ClearLinks(db, id);
    forall e | e in r.dispatches ensures e.linkedCvId != Some(id) {
      var i :| 0 <= i < |r.dispatches| && r.dispatches[i] == e;
    }
  }

  lemma SetLinksEffect(db: Db, id: Id, ids: seq<Id>, bound: nat)
    requires WellFormed(db) && IdsBelow(db, bound) && id in DispatchIds(db)
    requires forall e :: e in db.dispatches ==> e.linkedCvId != Some(id)
    ensures var r := SetLinks(db, id, ids);
      && WellFormed(r) && IdsBelow(r, bound) && DispatchIds(r) == DispatchIds(db)
      && forall e :: e in r.dispatches ==> (e.linkedCvId == Some(id) <==> e.id in ids && e.documentType == TTr)
  {
    UpdateWhereKeepsValid(db, LinkableTtr(ids), SetLink(Some(id)), bound);
    var r := SetLinks(db, id, ids);
    forall e | e in r.dispatches
      ensures e.linkedCvId == Some(id) <==> e.id in ids && e.documentType == TTr
    {
      var i :| 0 <= i < |r.dispatches| && r.dispatches[i] == e;
      assert db.dispatches[i] in db.dispatches;
    }
  }

  /** `b` is `a` with, at most, other `linkedCvId` values. */
  predicate SameButLinks(a: Db, b: Db)
  {
    && a.transformers == b.transformers && |a.dispatches| == |b.dispatches|
    && forall i :: 0 <= i < |a.dispatches| ==>
         b.dispatches[i] == a.dispatches[i].(linkedCvId := b.dispatches[i].linkedCvId)
  }

  lemma SetLinkSameButLinks(db: Db, p: Dispatch -> bool, link: Option<Id>)
    ensures SameButLinks(db, UpdateWhere(db, p, SetLink(link)))
  {
  }

  /** Re-linking touches only `linkedCvId`, keeps the store well-formed, and for a CV leaves
      exactly the listed TTrs linked to it. */
  lemma RelinkedEffect(db: Db, f: UpdateForm, id: Id, bound: nat)
    requires WellFormed(db) && IdsBelow(db, bound) && id in DispatchIds(db)
    ensures var r := Relinked(db, f, id);
      && WellFormed(r) && IdsBelow(r, bound) && DispatchIds(r) == DispatchIds(db)
      && SameButLinks(db, r)
      && (Kind(f) == CV ==> forall e :: e in r.dispatches ==>
            (e.linkedCvId == Some(id) <==> e.id in f.linkedTtrIds && e.documentType == TTr))
  {
    if Kind(f) == CV {
      ClearLinksEffect(db, id, bound);
      SetLinkSameButLinks(db, LinkedTo(id), None);
      if |f.linkedTtrIds| > 0 {
        var c := ClearLinks(db, id);
        SetLinksEffect(c, id, f.linkedTtrIds, bound);
        SetLinkSameButLinks(c, LinkableTtr(f.linkedTtrIds), Some(id));
        var r := SetLinks(c, id, f.linkedTtrIds);
        forall i | 0 <= i < |db.dispatches|
          ensures r.dispatches[i] == db.dispatches[i].(linkedCvId := r.dispatches[i].linkedCvId)
        {
          assert r.dispatches[i] == c.dispatches[i].(linkedCvId := r.dispatches[i].linkedCvId);
        }
      }
    }
  }

  lemma LinkTtrEffect(db: Db, id: Id, cv: Id, bound: nat)
    requires WellFormed(db) && IdsBelow(db, bound) && id in DispatchIds(db) && cv in DispatchIds(db)
    ensures var r := LinkTtr(db, id, cv);
      && WellFormed(r) && IdsBelow(r, bound) && DispatchIds(r) == DispatchIds(db)
      && r.transformers == db.transformers
      && FindDispatch(r, id) == Some(FindDispatch(db, id).value.(linkedCvId := Some(cv)))
      && forall k :: k != id ==> FindDispatch(r, k) == FindDispatch(db, k)
  {
    UpdateWhereKeepsValid(db, HasId(id), SetLink(Some(cv)), bound);
    FindAfterUpdateWhere(db, HasId(id), SetLink(Some(cv)), FindDispatch(db, id).value);
    var r := LinkTtr(db, id, cv);
    forall k | k != id ensures FindDispatch(r, k) == FindDispatch(db, k) {
      FindAfterUpdateWhereAny(db, HasId(id), SetLink(Some(cv)), k);
    }
  }

  // ---- the action ----

  /** updateDispatch. The store after the call, the id generator and the reply are those
      `Updated` describes, and the store stays well-formed whichever write fails. */
  method Update(store: Store, f: UpdateForm, parse: string -> Option<int>, now: int, fault: nat)
    returns (o: Outcome)
    requires store.Valid()
    modifies store
    ensures store.Valid()
    ensures Effect(store.db, store.nextId, o) == Updated(old(store.db), old(store.nextId), f, parse, now, fault)
  {
    if !ValidUpdateForm(f) {
      return Failed(InvalidInput);
    }
    var id := f.id.value;
    if fault == 1 || !ScalarsAccepted(store.db, f, parse) {
      return Failed(StorageError);
    }
    assert WellFormed(WriteScalars(store.db, f, parse)) && IdsBelow(WriteScalars(store.db, f, parse), store.nextId)
      && id in DispatchIds(WriteScalars(store.db, f, parse)) by {
      WriteScalarsEffect(store.db, f, parse, store.nextId);
    }
    store.db := WriteScalars(store.db, f, parse);
    o := UpdateUnits(store, f, id, parse, now, fault);
  }

  /** Writes 2 to 7. */
  method UpdateUnits(store: Store, f: UpdateForm, id: Id, parse: string -> Option<int>, now: int, fault: nat)
    returns (o: Outcome)
    requires store.Valid() && id in DispatchIds(store.db)
    modifies store
    ensures store.Valid()
    ensures Effect(store.db, store.nextId, o) == UnitsReplaced(old(store.db), old(store.nextId), f, id, parse, now, fault)
  {
    ghost var db1, next1 := store.db, store.nextId;
    if fault == 2 {
      o := Failed(StorageError);
      assert UnitsReplaced(db1, next1, f, id, parse, now, fault) == Effect(db1, next1, o);
    } else if fault == 3 {
      assert WellFormed(RemoveUnitsOf(db1, id)) && IdsBelow(RemoveUnitsOf(db1, id), next1) by {
        RemoveUnitsKeepsValid(db1, id, next1);
      }
      store.db := RemoveUnitsOf(store.db, id);
      o := Failed(StorageError);
      assert UnitsReplaced(db1, next1, f, id, parse, now, fault) == Effect(RemoveUnitsOf(db1, id), next1, o);
    } else {
      var us := NewUnits(f.transformers, id, store.nextId, now, true);
      ghost var db3, next3 := ReplaceUnits(db1, id, us), next1 + |us|;
      assert UnitsReplaced(db1, next1, f, id, parse, now, fault) == LinksUpdated(db3, next3, f, id, parse, now, fault);
      assert WellFormed(db3) && IdsBelow(db3, next3) && id in DispatchIds(db3) by {
        ReplaceUnitsEffect(db1, id, us, next1);
      }
      store.db := ReplaceUnits(store.db, id, us);
      store.nextId := store.nextId + |us|;
      o := UpdateLinks(store, f, id, parse, now, fault, db3, next3);
    }
  }

  /** Writes 4 to 7. */
  method UpdateLinks(store: Store, f: UpdateForm, id: Id, parse: string -> Option<int>, now: int, fault: nat,
                     ghost db3: Db, ghost next3: nat)
    returns (o: Outcome)
    requires store.Valid() && store.db == db3 && store.nextId == next3 && id in DispatchIds(db3)
    modifies store
    ensures store.Valid()
    ensures Effect(store.db, store.nextId, o) == LinksUpdated(db3, next3, f, id, parse, now, fault)
  {
    if Kind(f) == CV {
      if fault == 4 {
        return Failed(StorageError);
      }
      ClearLinksEffect(store.db, id, store.nextId);
      store.db := ClearLinks(store.db, id);
      if |f.linkedTtrIds| > 0 {
        if fault == 5 {
          return Failed(StorageError);
        }
        SetLinksEffect(store.db, id, f.linkedTtrIds, store.nextId);
        store.db := SetLinks(store.db, id, f.linkedTtrIds);
      }
    }
    assert store.db == Relinked(db3, f, id);
    if !Promotes(f) {
      return Success;
    }
    o := Promote(store, f, id, parse, now, fault);
  }

  /** Writes 6 and 7. */
  method Promote(store: Store, f: UpdateForm, id: Id, parse: string -> Option<int>, now: int, fault: nat)
    returns (o: Outcome)
    requires store.Valid() && id in DispatchIds(store.db) && Promotes(f)
    modifies store
    ensures store.Valid()
    ensures Effect(store.db, store.nextId, o) == Promoted(old(store.db), old(store.nextId), f, id, parse, now, fault)
  {
    ghost var db5, next5 := store.db, store.nextId;
    var cvDate := LetterDate(f, parse);
    if fault == 6 || cvDate.None? {
      assert Promoted(db5, next5, f, id, parse, now, fault) == Effect(db5, next5, Failed(StorageError));
      return Failed(StorageError);
    }
    var cv := store.CreateWithUnits(CvRow(f, cvDate.value, now), f.transformers, now, false);
    assert Promoted(db5, next5, f, id, parse, now, fault) == Linked(store.db, store.nextId, id, cv, fault);
    o := LinkToLetter(store, id, cv, fault);
  }

  /** Write 7. */
  method LinkToLetter(store: Store, id: Id, cv: Id, fault: nat) returns (o: Outcome)
    requires store.Valid() && id in DispatchIds(store.db) && cv in DispatchIds(store.db)
    modifies store
    ensures store.Valid()
    ensures Effect(store.db, store.nextId, o) == Linked(old(store.db), old(store.nextId), id, cv, fault)
  {
    if fault == 7 {
      return Failed(StorageError);
    }
    assert WellFormed(LinkTtr(store.db, id, cv)) && IdsBelow(LinkTtr(store.db, id, cv), store.nextId) by {
      LinkTtrEffect(store.db, id, cv, store.nextId);
    }
    store.db := LinkTtr(store.db, id, cv);
    o := Success;
  }

  // ---- what the action promises ----

  /** The writes the action issues for this form, numbered as `fault` numbers them. */
  function Issued(f: UpdateForm): (w: set<nat>)
    ensures {1, 2, 3} <= w
    ensures 4 in w <==> Kind(f) == CV
    ensures 5 in w <==> Kind(f) == CV && |f.linkedTtrIds| > 0
    ensures 6 in w <==> Promotes(f)
    ensures 7 in w <==> Promotes(f)
  {
    {1, 2, 3}
    + (if Kind(f) == CV then {4} else {})
    + (if Kind(f) == CV && |f.linkedTtrIds| > 0 then {5} else {})
    + (if Promotes(f) then {6, 7} else {})
  }

  /** The action succeeds exactly when the form is valid, the store accepts the data it is
      given, and no write it issues fails. */
  lemma UpdateSucceedsIff(db: Db, next: nat, f: UpdateForm, parse: string -> Option<int>, now: int, fault: nat)
    ensures Updated(db, next, f, parse, now, fault).outcome == Success <==>
      && ValidUpdateForm(f) && ScalarsAccepted(db, f, parse)
      && (Promotes(f) ==> parse(f.linkedCvDate.value).Some?)
      && fault !in Issued(f)
  {
    if !ValidUpdateForm(f) {
      assert Updated(db, next, f, parse, now, fault) == Effect(db, next, Failed(InvalidInput));
    } else if fault == 1 || !ScalarsAccepted(db, f, parse) {
      assert Updated(db, next, f, parse, now, fault) == Effect(db, next, Failed(StorageError));
    } else {
      var id := f.id.value;
      var db1 := WriteScalars(db, f, parse);
      assert Updated(db, next, f, parse, now, fault) == UnitsReplaced(db1, next, f, id, parse, now, fault);
      if fault !in {2, 3} {
        var us := NewUnits(f.transformers, id, next, now, true);
        assert UnitsReplaced(db1, next, f, id, parse, now, fault)
            == LinksUpdated(ReplaceUnits(db1, id, us), next + |us|, f, id, parse, now, fault);
        LinksUpdatedSucceedsIff(ReplaceUnits(db1, id, us), next + |us|, f, id, parse, now, fault);
      }
    }
  }

  /** Past the unit writes, the action succeeds exactly when none of the link writes it
      issues fails and, for a promotion, the letter's date reads. */
  lemma LinksUpdatedSucceedsIff(db3: Db, next3: nat, f: UpdateForm, id: Id, parse: string -> Option<int>, now: int, fault: nat)
    requires fault !in {1, 2, 3}
    ensures LinksUpdated(db3, next3, f, id, parse, now, fault).outcome == Success <==>
      && (Promotes(f) ==> parse(f.linkedCvDate.value).Some?)
      && fault !in Issued(f)
  {
    if Promotes(f) {
      var db5 := Relinked(db3, f, id);
      assert LinksUpdated(db3, next3, f, id, parse, now, fault) == Promoted(db5, next3, f, id, parse, now, fault);
      if fault != 6 && LetterDate(f, parse).Some? {
        var cv := next3;
        var db6 := InsertDispatch(db5, CvRow(f, LetterDate(f, parse).value, now).(id := cv),
                                  NewUnits(f.transformers, cv, cv + 1, now, false));
        assert Promoted(db5, next3, f, id, parse, now, fault) == Linked(db6, cv + |f.transformers| + 1, id, cv, fault);
      }
    }
  }

  /** An invalid form is rejected before any write: the store and the id counter are as before. */
  lemma UpdateRejectsInvalid(db: Db, next: nat, f: UpdateForm, parse: string -> Option<int>, now: int, fault: nat)
    requires !ValidUpdateForm(f)
    ensures Updated(db, next, f, parse, now, fault) == Effect(db, next, Failed(InvalidInput))
  {
  }

  /** With both rows sharing their position and id, a lookup in a store that differs only in
      links finds the same row up to its link. */
  lemma SameButLinksFind(a: Db, b: Db, k: Id)
    requires WellFormed(a) && WellFormed(b) && SameButLinks(a, b) && HasDispatch(a, k)
    ensures FindDispatch(b, k).Some?
    ensures FindDispatch(b, k).value == FindDispatch(a, k).value.(linkedCvId := FindDispatch(b, k).value.linkedCvId)
  {
    var d := FindDispatch(a, k).value;
    var i :| 0 <= i < |a.dispatches| && a.dispatches[i] == d;
    var e := b.dispatches[i];
    assert e in b.dispatches;
    FindDispatchIff(b, e);
  }

  /** Writes 6 and 7, when both succeed: a new IMPORT CV under the next id, with copies of the
      rows without test results or images; the TTr now points at it; nothing else changes. */
  lemma PromotedEffect(db5: Db, next5: nat, f: UpdateForm, id: Id, parse: string -> Option<int>, now: int, fault: nat)
    requires WellFormed(db5) && IdsBelow(db5, next5) && id in DispatchIds(db5) && Promotes(f)
    requires Promoted(db5, next5, f, id, parse, now, fault).outcome == Success
    ensures var e := Promoted(db5, next5, f, id, parse, now, fault);
      && parse(f.linkedCvDate.value).Some?
      && e.nextId == next5 + |f.transformers| + 1
      && WellFormed(e.db) && IdsBelow(e.db, e.nextId)
      && DispatchIds(e.db) == DispatchIds(db5) + {next5}
      && FindDispatch(e.db, next5) == Some(CvRow(f, parse(f.linkedCvDate.value).value, now).(id := next5))
      && UnitsOf(e.db, next5) == NewUnits(f.transformers, next5, next5 + 1, now, false)
      && (forall k :: k != next5 ==> UnitsOf(e.db, k) == UnitsOf(db5, k))
      && FindDispatch(e.db, id) == Some(FindDispatch(db5, id).value.(linkedCvId := Some(next5)))
  {
    var row := CvRow(f, parse(f.linkedCvDate.value).value, now).(id := next5);
    var us := NewUnits(f.transformers, next5, next5 + 1, now, false);
    var db6 := InsertDispatch(db5, row, us);
    InsertFresh(db5, row, us, next5);
    var d := FindDispatch(db5, id).value;
    assert d in db6.dispatches;
    FindDispatchIff(db6, d);
    LinkTtrEffect(db6, id, next5, next5 + |us| + 1);
  }

  /** The store after writes 1 to 3, when all three succeed. */
  function Rewritten(db: Db, next: nat, f: UpdateForm, parse: string -> Option<int>, now: int): Db
    requires ValidUpdateForm(f) && ScalarsAccepted(db, f, parse)
  {
    ReplaceUnits(WriteScalars(db, f, parse), f.id.value, NewUnits(f.transformers, f.id.value, next, now, true))
  }

  /** Writes 1 to 3 keep the store well-formed, keep every dispatch, give the dispatch its new
      fields and exactly the form's units, and leave every other dispatch's units alone. */
  lemma RewrittenEffect(db: Db, next: nat, f: UpdateForm, parse: string -> Option<int>, now: int)
    requires WellFormed(db) && IdsBelow(db, next) && ValidUpdateForm(f) && ScalarsAccepted(db, f, parse)
    ensures var r := Rewritten(db, next, f, parse, now);
      && WellFormed(r) && IdsBelow(r, next + |f.transformers|) && DispatchIds(r) == DispatchIds(db)
      && FindDispatch(r, f.id.value)
         == Some(Rescalar(FindDispatch(db, f.id.value).value, f, parse(f.date).value, TxDate(f, parse)))
      && UnitsOf(r, f.id.value) == NewUnits(f.transformers, f.id.value, next, now, true)
      && forall k :: k != f.id.value ==> UnitsOf(r, k) == UnitsOf(db, k)
  {
    var id := f.id.value;
    var db1 := WriteScalars(db, f, parse);
    WriteScalarsEffect(db, f, parse, next);
    var us := NewUnits(f.transformers, id, next, now, true);
    ReplaceUnitsEffect(db1, id, us, next);
    assert FindDispatch(Rewritten(db, next, f, parse, now), id) == FindDispatch(db1, id);
  }

  /** A successful update went through writes 1 to 3, which left a well-formed store with
      the dispatch in place, and then the link writes. */
  lemma UpdatedSplit(db: Db, next: nat, f: UpdateForm, parse: string -> Option<int>, now: int, fault: nat)
    returns (db3: Db, next3: nat)
    requires WellFormed(db) && IdsBelow(db, next)
    requires Updated(db, next, f, parse, now, fault).outcome == Success
    ensures ValidUpdateForm(f) && ScalarsAccepted(db, f, parse)
    ensures db3 == Rewritten(db, next, f, parse, now) && next3 == next + |f.transformers|
    ensures WellFormed(db3) && IdsBelow(db3, next3) && DispatchIds(db3) == DispatchIds(db)
    ensures f.id.value in DispatchIds(db3)
    ensures Updated(db, next, f, parse, now, fault) == LinksUpdated(db3, next3, f, f.id.value, parse, now, fault)
  {
    assert ValidUpdateForm(f) && ScalarsAccepted(db, f, parse) by {
      UpdatedSuccess(db, next, f, parse, now, fault);
    }
    db3, next3 := Rewritten(db, next, f, parse, now), next + |f.transformers|;
    assert Updated(db, next, f, parse, now, fault) == LinksUpdated(db3, next3, f, f.id.value, parse, now, fault) by {
      UpdatedSuccess(db, next, f, parse, now, fault);
    }
    assert WellFormed(db3) && IdsBelow(db3, next3) && DispatchIds(db3) == DispatchIds(db) by {
      RewrittenEffect(db, next, f, parse, now);
    }
  }

  /** A successful update went through writes 1 to 3 and then the link writes. */
  lemma UpdatedSuccess(db: Db, next: nat, f: UpdateForm, parse: string -> Option<int>, now: int, fault: nat)
    requires Updated(db, next, f, parse, now, fault).outcome == Success
    ensures ValidUpdateForm(f) && ScalarsAccepted(db, f, parse)
    ensures Updated(db, next, f, parse, now, fault)
         == LinksUpdated(Rewritten(db, next, f, parse, now), next + |f.transformers|, f, f.id.value, parse, now, fault)
  {
    assert ValidUpdateForm(f) && fault != 1 && ScalarsAccepted(db, f, parse);
    var db1 := WriteScalars(db, f, parse);
    assert Updated(db, next, f, parse, now, fault) == UnitsReplaced(db1, next, f, f.id.value, parse, now, fault);
    assert fault !in {2, 3};
  }

  /** Successful link writes re-link a CV, or promote a TTr that names its letter. */
  lemma LinksUpdatedSuccess(db3: Db, next3: nat, f: UpdateForm, id: Id, parse: string -> Option<int>, now: int, fault: nat)
    requires LinksUpdated(db3, next3, f, id, parse, now, fault).outcome == Success
    ensures !Promotes(f) ==> LinksUpdated(db3, next3, f, id, parse, now, fault) == Effect(Relinked(db3, f, id), next3, Success)
    ensures Promotes(f) ==> LinksUpdated(db3, next3, f, id, parse, now, fault) == Promoted(Relinked(db3, f, id), next3, f, id, parse, now, fault)
  {
  }

  /** After a successful update the dispatch owns exactly the units of the form, numbered from
      the id generator on and with their test results and images; every other dispatch that
      existed keeps its units. */
  lemma UpdateReplacesUnits(db: Db, next: nat, f: UpdateForm, parse: string -> Option<int>, now: int, fault: nat)
    requires WellFormed(db) && IdsBelow(db, next)
    requires Updated(db, next, f, parse, now, fault).outcome == Success
    ensures f.id.Some?
    ensures var u := Updated(db, next, f, parse, now, fault);
      && UnitsOf(u.db, f.id.value) == NewUnits(f.transformers, f.id.value, next, now, true)
      && forall k: Id :: k < next && k != f.id.value ==> UnitsOf(u.db, k) == UnitsOf(db, k)
  {
    var id := f.id.value;
    var u := Updated(db, next, f, parse, now, fault);
    var db3, next3 := UpdatedSplit(db, next, f, parse, now, fault);
    var db5 := Relinked(db3, f, id);
    assert WellFormed(db5) && IdsBelow(db5, next3) && DispatchIds(db5) == DispatchIds(db3)
      && db5.transformers == db3.transformers by {
      RelinkedEffect(db3, f, id, next3);
    }
    assert UnitsOf(db3, id) == NewUnits(f.transformers, id, next, now, true)
      && forall k :: k != id ==> UnitsOf(db3, k) == UnitsOf(db, k) by {
      RewrittenEffect(db, next, f, parse, now);
    }
    if Promotes(f) {
      assert u == Promoted(db5, next3, f, id, parse, now, fault) by {
        LinksUpdatedSuccess(db3, next3, f, id, parse, now, fault);
      }
      PromotedEffect(db5, next3, f, id, parse, now, fault);
    } else {
      assert u == Effect(db5, next3, Success) by {
        LinksUpdatedSuccess(db3, next3, f, id, parse, now, fault);
      }
    }
  }

  /** After a successful update the dispatch carries the form's number, date, kind, CBM flag,
      file and (when given) transaction date and source; an empty transaction date or an
      absent source leaves the stored one. Only its link to a letter may differ from that. */
  lemma UpdateWritesFields(db: Db, next: nat, f: UpdateForm, parse: string -> Option<int>, now: int, fault: nat)
    requires WellFormed(db) && IdsBelow(db, next)
    requires Updated(db, next, f, parse, now, fault).outcome == Success
    ensures f.id.Some? && HasDispatch(db, f.id.value) && parse(f.date).Some?
    ensures var u := Updated(db, next, f, parse, now, fault);
      var d := FindDispatch(db, f.id.value).value;
      && FindDispatch(u.db, f.id.value).Some?
      && var d' := FindDispatch(u.db, f.id.value).value;
      && d' == d.(linkedCvId := d'.linkedCvId, dispatchNumber := d'.dispatchNumber, date := d'.date,
                  transactionDate := d'.transactionDate, documentType := d'.documentType,
                  isCBM := d'.isCBM, fileUrl := d'.fileUrl, sourceDispatchId := d'.sourceDispatchId)
      && d'.dispatchNumber == Some(f.dispatchNumber) && d'.date == parse(f.date).value
      && d'.documentType == DocumentTypeOr(f.documentType) && d'.isCBM == FlagOr(f.isCBM)
      && d'.fileUrl == UrlOr(f.fileUrl)
      && (Truthy(f.transactionDate) ==> d'.transactionDate == parse(f.transactionDate.value))
      && (!Truthy(f.transactionDate) ==> d'.transactionDate == d.transactionDate)
      && (f.sourceDispatchId.Some? ==> d'.sourceDispatchId == f.sourceDispatchId)
      && (f.sourceDispatchId.None? ==> d'.sourceDispatchId == d.sourceDispatchId)
  {
    var id := f.id.value;
    var u := Updated(db, next, f, parse, now, fault);
    var db3, next3 := UpdatedSplit(db, next, f, parse, now, fault);
    var db5 := Relinked(db3, f, id);
    assert WellFormed(db5) && IdsBelow(db5, next3) && DispatchIds(db5) == DispatchIds(db3)
      && db5.transformers == db3.transformers by {
      RelinkedEffect(db3, f, id, next3);
    }
    assert FindDispatch(db3, id)
      == Some(Rescalar(FindDispatch(db, id).value, f, parse(f.date).value, TxDate(f, parse))) by {
      RewrittenEffect(db, next, f, parse, now);
    }
    assert SameButLinks(db3, db5) by {
      RelinkedEffect(db3, f, id, next3);
    }
    SameButLinksFind(db3, db5, id);
    if Promotes(f) {
      assert u == Promoted(db5, next3, f, id, parse, now, fault) by {
        LinksUpdatedSuccess(db3, next3, f, id, parse, now, fault);
      }
      PromotedEffect(db5, next3, f, id, parse, now, fault);
    } else {
      assert u == Effect(db5, next3, Success) by {
        LinksUpdatedSuccess(db3, next3, f, id, parse, now, fault);
      }
    }
  }

  /** A CV that is updated successfully is, afterwards, the letter of exactly the listed
      dispatches that are TTrs: links from earlier are dropped, not merged, and listed ids
      of other kinds are ignored. No dispatch is created or removed. */
  lemma UpdateRelinksCv(db: Db, next: nat, f: UpdateForm, parse: string -> Option<int>, now: int, fault: nat)
    requires WellFormed(db) && IdsBelow(db, next)
    requires Updated(db, next, f, parse, now, fault).outcome == Success && Kind(f) == CV
    ensures f.id.Some?
    ensures var u := Updated(db, next, f, parse, now, fault);
      && DispatchIds(u.db) == DispatchIds(db)
      && forall e :: e in u.db.dispatches ==>
           (e.linkedCvId == Some(f.id.value) <==> e.id in f.linkedTtrIds && e.documentType == TTr)
  {
    var id := f.id.value;
    var u := Updated(db, next, f, parse, now, fault);
    var db3, next3 := UpdatedSplit(db, next, f, parse, now, fault);
    assert u.db == Relinked(db3, f, id) by {
      LinksUpdatedSuccess(db3, next3, f, id, parse, now, fault);
    }
    RelinkedEffect(db3, f, id, next3);
  }

  /** A TTr that names its letter is promoted: a new IMPORT CV, under the id that follows the
      replaced units, owning copies of the form's rows without test results or images, and the
      TTr now points at it. */
  lemma UpdatePromotes(db: Db, next: nat, f: UpdateForm, parse: string -> Option<int>, now: int, fault: nat)
    returns (cv: Id)
    requires WellFormed(db) && IdsBelow(db, next) && Promotes(f)
    requires Updated(db, next, f, parse, now, fault).outcome == Success
    ensures cv == next + |f.transformers|
    ensures f.id.Some? && parse(f.linkedCvDate.value).Some?
    ensures var u := Updated(db, next, f, parse, now, fault);
      && u.nextId == cv + |f.transformers| + 1
      && DispatchIds(u.db) == DispatchIds(db) + {cv}
      && FindDispatch(u.db, cv) == Some(CvRow(f, parse(f.linkedCvDate.value).value, now).(id := cv))
      && FindDispatch(u.db, f.id.value).Some?
      && FindDispatch(u.db, f.id.value).value.linkedCvId == Some(cv)
  {
    var db5;
    cv, db5 := PromotionSplit(db, next, f, parse, now, fault);
    PromotedEffect(db5, cv, f, f.id.value, parse, now, fault);
  }

  /** The promoted letter owns copies of the form's rows, numbered after it, without test
      results or images. */
  lemma UpdatePromotedUnits(db: Db, next: nat, f: UpdateForm, parse: string -> Option<int>, now: int, fault: nat)
    returns (cv: Id)
    requires WellFormed(db) && IdsBelow(db, next) && Promotes(f)
    requires Updated(db, next, f, parse, now, fault).outcome == Success
    ensures cv == next + |f.transformers|
    ensures UnitsOf(Updated(db, next, f, parse, now, fault).db, cv) == NewUnits(f.transformers, cv, cv + 1, now, false)
  {
    var db5;
    cv, db5 := PromotionSplit(db, next, f, parse, now, fault);
    PromotedEffect(db5, cv, f, f.id.value, parse, now, fault);
  }

  /** A successful promotion started from a well-formed store after the re-link step. */
  lemma PromotionSplit(db: Db, next: nat, f: UpdateForm, parse: string -> Option<int>, now: int, fault: nat)
    returns (cv: Id, db5: Db)
    requires WellFormed(db) && IdsBelow(db, next) && Promotes(f)
    requires Updated(db, next, f, parse, now, fault).outcome == Success
    ensures cv == next + |f.transformers| && f.id.Some?
    ensures WellFormed(db5) && IdsBelow(db5, cv) && DispatchIds(db5) == DispatchIds(db)
    ensures f.id.value in DispatchIds(db5)
    ensures Updated(db, next, f, parse, now, fault) == Promoted(db5, cv, f, f.id.value, parse, now, fault)
  {
    var id := f.id.value;
    var db3;
    db3, cv := UpdatedSplit(db, next, f, parse, now, fault);
    db5 := Relinked(db3, f, id);
    assert WellFormed(db5) && IdsBelow(db5, cv) && DispatchIds(db5) == DispatchIds(db3) by {
      RelinkedEffect(db3, f, id, cv);
    }
    LinksUpdatedSuccess(db3, cv, f, id, parse, now, fault);
  }

  /** Any other successful update creates and removes no dispatch, and draws ids only for
      the replaced units. */
  lemma UpdateWithoutPromotion(db: Db, next: nat, f: UpdateForm, parse: string -> Option<int>, now: int, fault: nat)
    requires WellFormed(db) && IdsBelow(db, next) && !Promotes(f)
    requires Updated(db, next, f, parse, now, fault).outcome == Success
    ensures var u := Updated(db, next, f, parse, now, fault);
      && u.nextId == next + |f.transformers|
      && DispatchIds(u.db) == DispatchIds(db)
  {
    var id := f.id.value;
    var u := Updated(db, next, f, parse, now, fault);
    var db3, next3 := UpdatedSplit(db, next, f, parse, now, fault);
    RelinkedEffect(db3, f, id, next3);
    assert u == Effect(Relinked(db3, f, id), next3, Success) by {
      LinksUpdatedSuccess(db3, next3, f, id, parse, now, fault);
    }
  }

  /** The writes are not undone when a later one fails: a fault in the creation of the new
      units leaves the dispatch with its new fields and no units at all. */
  lemma UpdateFaultKeepsEarlierWrites(db: Db, next: nat, f: UpdateForm, parse: string -> Option<int>, now: int)
    requires WellFormed(db) && IdsBelow(db, next)
    requires ValidUpdateForm(f) && ScalarsAccepted(db, f, parse)
    ensures var u := Updated(db, next, f, parse, now, 3);
      && u.outcome == Failed(StorageError)
      && UnitsOf(u.db, f.id.value) == []
      && FindDispatch(u.db, f.id.value)
         == Some(Rescalar(FindDispatch(db, f.id.value).value, f, parse(f.date).value, TxDate(f, parse)))
  {
    var id := f.id.value;
    var db1 := WriteScalars(db, f, parse);
    assert FindDispatch(db1, id)
        == Some(Rescalar(FindDispatch(db, id).value, f, parse(f.date).value, TxDate(f, parse))) by {
      WriteScalarsEffect(db, f, parse, next);
    }
    assert UnitsOf(RemoveUnitsOf(db1, id), id) == [] by {
      RemoveUnitsOfEffect(db1, id);
    }
    assert Updated(db, next, f, parse, now, 3) == Effect(RemoveUnitsOf(db1, id), next, Failed(StorageError));
  }
}
