/** The one-off script scripts/assign-teams.ts: it reads the team suffix off each dispatch
    number and moves the dispatch to that team. */
module AssignTeams {
  import opened Seqs
  import opened Model
  import opened Store
  import opened Text
  import opened Admin

  /** One entry of `suffixToTeamCode`: a number ending such as "/TTr-ĐTB" names a team code. */
  datatype SuffixRule = SuffixRule(suffix: string, teamCode: string)

  /** The table, in the order `Object.entries` walks it. */
  const SuffixToTeamCode: seq<SuffixRule> := [
    SuffixRule("/TTr-ĐTB", "ĐTB"), SuffixRule("/ĐTB-KT", "ĐTB"),
    SuffixRule("/TTr-ĐTN", "ĐTN"), SuffixRule("/ĐTN-KT", "ĐTN"),
    SuffixRule("/TTr-ĐCL", "ĐCL"), SuffixRule("/ĐCL-KT", "ĐCL"),
    SuffixRule("/TTr-ĐMT", "ĐMT"), SuffixRule("/ĐMT-KT", "ĐMT"),
    SuffixRule("/TTr-ĐHN", "ĐHN"), SuffixRule("/ĐHN-KT", "ĐHN"),
    SuffixRule("/TTr-ĐTTT", "ĐTTT"), SuffixRule("/ĐTTT-KT", "ĐTTT"),
    SuffixRule("/TTr-ĐTM", "ĐTM"), SuffixRule("/ĐTM-KT", "ĐTM"),
    SuffixRule("/TTr-ĐTH", "ĐTH"), SuffixRule("/ĐTH-KT", "ĐTH")]

  /** The ending of an official letter (CV) number, which names no team. */
  const CvSuffix := "/PCĐT-KT+KHVT"

  /** `teamCodeToId` once every team has been entered: a code maps to the id of the last team
      carrying it. */
  function CodeMap(teams: seq<Team>): (m: map<string, Id>)
    ensures forall c :: c in m <==> exists t :: t in teams && t.code == c
    ensures forall i :: 0 <= i < |teams| && (forall j :: i < j < |teams| ==> teams[j].code != teams[i].code) ==>
      m[teams[i].code] == teams[i].id
    decreases |teams|
  {
    if teams == [] then map[]
    else
      var init, t := teams[..|teams| - 1], teams[|teams| - 1];
      assert teams == init + [t];
      var m := CodeMap(init);
      forall i | 0 <= i < |init| && (forall j :: i < j < |teams| ==> teams[j].code != teams[i].code)
        ensures m[teams[i].code] == teams[i].id
      {
        assert init[i] == teams[i];
        forall j | i < j < |init| ensures init[j].code != init[i].code {
          assert init[j] == teams[j];
        }
      }
      m[t.code := t.id]
  }

  /** The first loop of `main`, filling `teamCodeToId`. */
  method TeamCodeToId(teams: seq<Team>) returns (teamCodeToId: map<string, Id>)
    ensures teamCodeToId == CodeMap(teams)
  {
    teamCodeToId := map[];
    for i := 0 to |teams|
      invariant teamCodeToId == CodeMap(teams[..i])
    {
      assert teams[..i + 1][..i] == teams[..i];
      teamCodeToId := teamCodeToId[teams[i].code := teams[i].id];
    }
    assert teams[..|teams|] == teams;
  }

  /** With unique codes, as the teams table keeps them, every team's code maps to its id. */
  lemma CodeMapOfUniqueCodes(teams: seq<Team>, t: Team)
    requires KeysDistinct(teams, CodeKey) && t in teams
    ensures CodeMap(teams)[t.code] == t.id
  {
    var i :| 0 <= i < |teams| && teams[i] == t;
    forall j | i < j < |teams| ensures teams[j].code != teams[i].code {
      assert CodeKey(teams[i]) != CodeKey(teams[j]);
    }
  }

  /** The position of the first rule whose suffix occurs in `number`; `|rules|` when none does. */
  function FirstMatch(number: string, rules: seq<SuffixRule>): (k: nat)
    ensures k <= |rules|
    ensures forall j :: 0 <= j < k ==> !Includes(number, rules[j].suffix)
    ensures k < |rules| ==> Includes(number, rules[k].suffix)
    decreases |rules|
  {
    if rules == [] then 0
    else if Includes(number, rules[0].suffix) then 0
    else
      var k := FirstMatch(number, rules[1..]);
      assert forall j :: 1 <= j <= k ==> rules[j] == rules[1..][j - 1];
      1 + k
  }

  /** The first match is the one position with a match and no match before it. */
  lemma FirstMatchUnique(number: string, rules: seq<SuffixRule>, i: nat)
    requires i <= |rules| && forall j :: 0 <= j < i ==> !Includes(number, rules[j].suffix)
    requires i < |rules| ==> Includes(number, rules[i].suffix)
    ensures FirstMatch(number, rules) == i
  {
  }

  /** The team code the table gives a number: that of its first matching rule. */
  function TeamFor(number: string): Option<string>
  {
    var k := FirstMatch(number, SuffixToTeamCode);
    if k < |SuffixToTeamCode| then Some(SuffixToTeamCode[k].teamCode) else None
  }

  /** The inner loop: walks the table and stops at the first suffix the number contains. */
  method FindTeamCode(dispatchNumber: string) returns (foundTeamCode: Option<string>)
    ensures foundTeamCode == TeamFor(dispatchNumber)
  {
    foundTeamCode := None;
    var i := 0;
    while i < |SuffixToTeamCode|
      invariant 0 <= i <= |SuffixToTeamCode|
      invariant forall j :: 0 <= j < i ==> !Includes(dispatchNumber, SuffixToTeamCode[j].suffix)
    {
      var rule := SuffixToTeamCode[i];
      if Includes(dispatchNumber, rule.suffix) {
        foundTeamCode := Some(rule.teamCode);
        FirstMatchUnique(dispatchNumber, SuffixToTeamCode, i);
        return;
      }
      i := i + 1;
    }
    FirstMatchUnique(dispatchNumber, SuffixToTeamCode, i);
  }

  /** The table order decides, not the position in the number: a number carrying both the
      ĐTN and the ĐTB suffix belongs to ĐTB, whose rule comes first. */
  lemma TableOrderWins()
    ensures TeamFor("12/ĐTN-KT/TTr-ĐTB") == Some("ĐTB")
  {
    assert OccursAt(SuffixToTeamCode[0].suffix, "12/ĐTN-KT/TTr-ĐTB", 9);
  }

  /** `dispatch.dispatchNumber || ''`. */
  function NumberOf(d: Dispatch): string
  {
    if d.dispatchNumber.Some? then d.dispatchNumber.value else ""
  }

  /** What the script does with one dispatch, one case per message it logs. */
  datatype Verdict = Reassigned(teamId: Id) | AlreadyAssigned | OfficialCv | NoTeam

  /** The branches of the loop body: a found code that names a stored team moves the dispatch
      there unless it is already there; anything else is skipped. */
  function VerdictOf(d: Dispatch, teamCodeToId: map<string, Id>): Verdict
  {
    var dispatchNumber := NumberOf(d);
    var foundTeamCode := TeamFor(dispatchNumber);
    if Truthy(foundTeamCode) && foundTeamCode.value in teamCodeToId then
      var newTeamId := teamCodeToId[foundTeamCode.value];
      if d.teamId != Some(newTeamId) then Reassigned(newTeamId) else AlreadyAssigned
    else if Includes(dispatchNumber, CvSuffix) then OfficialCv
    else NoTeam
  }

  /** The dispatch after the script has seen it. */
  function Assign(d: Dispatch, teamCodeToId: map<string, Id>): (d': Dispatch)
    ensures d' == d.(teamId := d'.teamId)
  {
    var v := VerdictOf(d, teamCodeToId);
    if v.Reassigned? then d.(teamId := Some(v.teamId)) else d
  }

  function IsReassigned(teamCodeToId: map<string, Id>): Dispatch -> bool
  {
    (d: Dispatch) => VerdictOf(d, teamCodeToId).Reassigned?
  }

  /** The store once every dispatch has been seen. */
  function AssignAll(db: Db, teamCodeToId: map<string, Id>): (r: Db)
    ensures r.transformers == db.transformers && |r.dispatches| == |db.dispatches|
    ensures forall i :: 0 <= i < |db.dispatches| ==> r.dispatches[i] == Assign(db.dispatches[i], teamCodeToId)
  {
    Db(seq(|db.dispatches|, i requires 0 <= i < |db.dispatches| => Assign(db.dispatches[i], teamCodeToId)),
       db.transformers)
  }

  /** Writing `teamId` on the dispatch with id `id` (`dispatch.update`). */
  function SetTeam(db: Db, id: Id, teamId: Id): Db
  {
    UpdateWhere(db, (e: Dispatch) => e.id == id, (e: Dispatch) => e.(teamId := Some(teamId)))
  }

  /** Seeing one more dispatch adds one to the count of reassignments exactly when that
      dispatch is reassigned. */
  lemma CountStep(ds: seq<Dispatch>, k: nat, teamCodeToId: map<string, Id>)
    requires k < |ds|
    ensures |Filter(ds[..k + 1], IsReassigned(teamCodeToId))| ==
      |Filter(ds[..k], IsReassigned(teamCodeToId))| + if VerdictOf(ds[k], teamCodeToId).Reassigned? then 1 else 0
  {
    assert ds[..k + 1] == ds[..k] + [ds[k]];
    FilterAppend(ds[..k], [ds[k]], IsReassigned(teamCodeToId));
    assert Filter([ds[k]], IsReassigned(teamCodeToId)) ==
      if VerdictOf(ds[k], teamCodeToId).Reassigned? then [ds[k]] else [];
  }

  /** The body of the loop for one dispatch: look its suffix up, and write the team when it
      names a stored team other than the current one. When `writeFails`, that write throws:
      nothing is stored and `failed` reports it. */
  method AssignOne(store: Store, dispatch: Dispatch, teamCodeToId: map<string, Id>, writeFails: bool)
    returns (wasUpdated: bool, failed: bool)
    modifies store
    ensures var v := VerdictOf(dispatch, teamCodeToId);
      && (wasUpdated <==> v.Reassigned? && !writeFails)
      && (failed <==> v.Reassigned? && writeFails)
      && store.db == (if wasUpdated then SetTeam(old(store.db), dispatch.id, v.teamId) else old(store.db))
      && store.nextId == old(store.nextId)
  {
    var dispatchNumber := NumberOf(dispatch);
    var foundTeamCode := FindTeamCode(dispatchNumber);
    wasUpdated, failed := false, false;
    if Truthy(foundTeamCode) && foundTeamCode.value in teamCodeToId {
      var newTeamId := teamCodeToId[foundTeamCode.value];
      if dispatch.teamId != Some(newTeamId) {
        if writeFails {
          failed := true;
          return;
        }
        store.db := SetTeam(store.db, dispatch.id, newTeamId);
        wasUpdated := true;
      }
    } else if Includes(dispatchNumber, CvSuffix) {
      // an official letter: kept as it is
    } else {
      // no team found: kept as it is
    }
  }

  /** The store's dispatches, against the list `ds` first read: those before position `n`
      are as the script leaves them, the rest as read. */
  ghost predicate AssignedBefore(ds: seq<Dispatch>, db: Db, teamCodeToId: map<string, Id>, n: nat)
  {
    && |db.dispatches| == |ds|
    && forall j :: 0 <= j < |ds| ==> db.dispatches[j] == if j < n then Assign(ds[j], teamCodeToId) else ds[j]
  }

  /** One loop step on the store: with the ids of the list read distinct, writing the new
      team of the dispatch at position `k` on the row with its id moves the boundary by one. */
  lemma AssignStep(db: Db, ds: seq<Dispatch>, k: nat, teamCodeToId: map<string, Id>)
    requires forall i, j :: 0 <= i < j < |ds| ==> ds[i].id != ds[j].id
    requires k < |ds| && AssignedBefore(ds, db, teamCodeToId, k)
    requires VerdictOf(ds[k], teamCodeToId).Reassigned?
    ensures AssignedBefore(ds, SetTeam(db, ds[k].id, VerdictOf(ds[k], teamCodeToId).teamId), teamCodeToId, k + 1)
  {
    var r := SetTeam(db, ds[k].id, VerdictOf(ds[k], teamCodeToId).teamId);
    forall j | 0 <= j < |ds| && j != k ensures r.dispatches[j] == db.dispatches[j] {
      assert db.dispatches[j].id == ds[j].id;
      if j < k { assert ds[j].id != ds[k].id; } else { assert ds[k].id != ds[j].id; }
    }
  }

  /** Changing teams only keeps the store well-formed: ids and references stay as they were. */
  lemma AssignedBeforeValid(db0: Db, db: Db, teamCodeToId: map<string, Id>, n: nat, bound: nat)
    requires WellFormed(db0) && IdsBelow(db0, bound)
    requires db.transformers == db0.transformers && AssignedBefore(db0.dispatches, db, teamCodeToId, n)
    ensures WellFormed(db) && IdsBelow(db, bound)
  {
    assert forall j :: 0 <= j < |db.dispatches| ==> db.dispatches[j] == db0.dispatches[j].(teamId := db.dispatches[j].teamId);
    assert DispatchIds(db) == DispatchIds(db0) by {
      forall x | x in DispatchIds(db0) ensures x in DispatchIds(db) {
        var j :| 0 <= j < |db0.dispatches| && db0.dispatches[j].id == x;
        assert db.dispatches[j] in db.dispatches;
      }
    }
    forall d | d in db.dispatches
      ensures RefOk(db, d.linkedCvId) && RefOk(db, d.sourceDispatchId) && d.id < bound
    {
      var j :| 0 <= j < |db.dispatches| && db.dispatches[j] == d;
      assert db0.dispatches[j] in db0.dispatches;
    }
  }

  /** Once every dispatch is past, the store is the one `AssignAll` describes. */
  lemma AssignedBeforeAll(db0: Db, db: Db, teamCodeToId: map<string, Id>)
    requires AssignedBefore(db0.dispatches, db, teamCodeToId, |db0.dispatches|)
    requires db.transformers == db0.transformers
    ensures db == AssignAll(db0, teamCodeToId)
  {
    assert db.dispatches == AssignAll(db0, teamCodeToId).dispatches;
  }

  /** Whether the storage fault at position `failAt` of the pass is met: only a dispatch the
      script writes can make its write throw. */
  predicate FaultHits(ds: seq<Dispatch>, teamCodeToId: map<string, Id>, failAt: Option<nat>)
  {
    failAt.Some? && failAt.value < |ds| && VerdictOf(ds[failAt.value], teamCodeToId).Reassigned?
  }

  /** How many dispatches the pass gets through: all of them, or those before the one whose
      write throws. */
  function StopAt(ds: seq<Dispatch>, teamCodeToId: map<string, Id>, failAt: Option<nat>): (n: nat)
    ensures n <= |ds|
  {
    if FaultHits(ds, teamCodeToId, failAt) then failAt.value else |ds|
  }

  /** Where the pass stands after the first `k` dispatches of the list `ds` first read: those
      are as the script leaves them and counted, and the pass has stopped (`aborted`) only on
      the dispatch whose write throws. */
  ghost predicate PassedUpTo(ds: seq<Dispatch>, db: Db, teamCodeToId: map<string, Id>, failAt: Option<nat>,
                             k: nat, updated: nat, skipped: nat, aborted: bool)
  {
    && k <= |ds|
    && (aborted ==> k == StopAt(ds, teamCodeToId, failAt) < |ds|)
    && (FaultHits(ds, teamCodeToId, failAt) ==> k <= failAt.value)
    && AssignedBefore(ds, db, teamCodeToId, k)
    && updated == |Filter(ds[..k], IsReassigned(teamCodeToId))|
    && updated + skipped == k
  }

  /** One turn of the loop of `main`, on the dispatch at position `k`: the write of that
      dispatch throws when `failAt` names it. */
  method Visit(store: Store, ds: seq<Dispatch>, teamCodeToId: map<string, Id>, failAt: Option<nat>,
               k0: nat, updated0: nat, skipped0: nat) returns (k: nat, updated: nat, skipped: nat, aborted: bool)
    requires forall i, j :: 0 <= i < j < |ds| ==> ds[i].id != ds[j].id
    requires k0 < |ds| && PassedUpTo(ds, store.db, teamCodeToId, failAt, k0, updated0, skipped0, false)
    modifies store
    ensures store.nextId == old(store.nextId) && store.db.transformers == old(store.db.transformers)
    ensures PassedUpTo(ds, store.db, teamCodeToId, failAt, k, updated, skipped, aborted)
    ensures if aborted then k == k0 else k == k0 + 1
  {
    var writeFails := failAt.Some? && failAt.value == k0;
    CountStep(ds, k0, teamCodeToId);
    if VerdictOf(ds[k0], teamCodeToId).Reassigned? && !writeFails {
      AssignStep(store.db, ds, k0, teamCodeToId);
    } else if !VerdictOf(ds[k0], teamCodeToId).Reassigned? {
      assert AssignedBefore(ds, store.db, teamCodeToId, k0 + 1) by {
        assert Assign(ds[k0], teamCodeToId) == ds[k0];
      }
    }
    var wasUpdated;
    wasUpdated, aborted := AssignOne(store, ds[k0], teamCodeToId, writeFails);
    updated, skipped := updated0, skipped0;
    if aborted {
      k := k0;
      assert FaultHits(ds, teamCodeToId, failAt);
      return;
    }
    k := k0 + 1;
    if wasUpdated {
      updated := updated + 1;
    } else {
      skipped := skipped + 1;
    }
  }

  /** The second loop of `main`: one pass over the dispatches as first read, writing each
      reassignment and counting updated and skipped dispatches. A write that throws (the one
      for the dispatch at position `failAt`, when that dispatch is written) ends the pass. */
  method ReassignDispatches(store: Store, dispatches: seq<Dispatch>, teamCodeToId: map<string, Id>,
                            failAt: Option<nat>) returns (updated: nat, skipped: nat, aborted: bool)
    requires forall i, j :: 0 <= i < j < |dispatches| ==> dispatches[i].id != dispatches[j].id
    requires AssignedBefore(dispatches, store.db, teamCodeToId, 0)
    modifies store
    ensures store.nextId == old(store.nextId) && store.db.transformers == old(store.db.transformers)
    ensures aborted <==> FaultHits(dispatches, teamCodeToId, failAt)
    ensures AssignedBefore(dispatches, store.db, teamCodeToId, StopAt(dispatches, teamCodeToId, failAt))
    ensures updated == |Filter(dispatches[..StopAt(dispatches, teamCodeToId, failAt)], IsReassigned(teamCodeToId))|
    ensures updated + skipped == StopAt(dispatches, teamCodeToId, failAt)
  {
    updated, skipped, aborted := 0, 0, false;
    var k := 0;
    while k < |dispatches| && !aborted
      invariant store.nextId == old(store.nextId) && store.db.transformers == old(store.db.transformers)
      invariant PassedUpTo(dispatches, store.db, teamCodeToId, failAt, k, updated, skipped, aborted)
      decreases |dispatches| - k, !aborted
    {
      k, updated, skipped, aborted := Visit(store, dispatches, teamCodeToId, failAt, k, updated, skipped);
    }
  }

  /** `main`: builds the code table, then makes the pass. The dispatches before a write that
      throws stay reassigned, the rest keep their team, and `aborted` reports it. */
  method AssignAllTeams(store: Store, teams: seq<Team>, failAt: Option<nat>)
    returns (updated: nat, skipped: nat, aborted: bool)
    requires store.Valid()
    modifies store
    ensures store.Valid() && store.nextId == old(store.nextId)
    ensures store.db.transformers == old(store.db.transformers)
    ensures aborted <==> FaultHits(old(store.db.dispatches), CodeMap(teams), failAt)
    ensures AssignedBefore(old(store.db.dispatches), store.db, CodeMap(teams),
                           StopAt(old(store.db.dispatches), CodeMap(teams), failAt))
    ensures updated == |Filter(old(store.db.dispatches)[..StopAt(old(store.db.dispatches), CodeMap(teams), failAt)],
                               IsReassigned(CodeMap(teams)))|
    ensures updated + skipped == StopAt(old(store.db.dispatches), CodeMap(teams), failAt)
    ensures !aborted ==> && store.db == AssignAll(old(store.db), CodeMap(teams))
                         && updated == |Filter(old(store.db.dispatches), IsReassigned(CodeMap(teams)))|
                         && updated + skipped == |old(store.db.dispatches)|
  {
    var teamCodeToId := TeamCodeToId(teams);
    var dispatches := store.db.dispatches;
    ghost var db0 := store.db;
    updated, skipped, aborted := ReassignDispatches(store, dispatches, teamCodeToId, failAt);
    ghost var n := StopAt(dispatches, teamCodeToId, failAt);
    AssignedBeforeValid(db0, store.db, teamCodeToId, n, store.nextId);
    if !aborted {
      assert dispatches[..n] == dispatches;
      AssignedBeforeAll(db0, store.db, teamCodeToId);
    }
  }

  /** A dispatch without a team suffix, CV or not, keeps its team. */
  lemma UnmatchedKeepsTeam(d: Dispatch, teamCodeToId: map<string, Id>)
    requires TeamFor(NumberOf(d)).None?
    ensures Assign(d, teamCodeToId) == d
    ensures !VerdictOf(d, teamCodeToId).Reassigned?
  {
  }

  /** With the codes unique, a reassigned dispatch goes to the team whose code its number
      carries. */
  lemma ReassignedToNamedTeam(d: Dispatch, teams: seq<Team>)
    requires KeysDistinct(teams, CodeKey)
    requires VerdictOf(d, CodeMap(teams)).Reassigned?
    ensures exists t :: t in teams && Some(t.code) == TeamFor(NumberOf(d)) && Assign(d, CodeMap(teams)).teamId == Some(t.id)
  {
    var c := TeamFor(NumberOf(d)).value;
    var t :| t in teams && t.code == c;
    CodeMapOfUniqueCodes(teams, t);
  }

  /** A dispatch the script has seen is left alone when seen again. */
  lemma AssignSettles(d: Dispatch, teamCodeToId: map<string, Id>)
    ensures !VerdictOf(Assign(d, teamCodeToId), teamCodeToId).Reassigned?
  {
    assert NumberOf(Assign(d, teamCodeToId)) == NumberOf(d);
  }

  /** Running the script a second time changes nothing and updates no dispatch. */
  lemma SecondRunUpdatesNothing(db: Db, teamCodeToId: map<string, Id>)
    ensures AssignAll(AssignAll(db, teamCodeToId), teamCodeToId) == AssignAll(db, teamCodeToId)
    ensures Filter(AssignAll(db, teamCodeToId).dispatches, IsReassigned(teamCodeToId)) == []
  {
    var once := AssignAll(db, teamCodeToId);
    forall d | d in once.dispatches ensures !IsReassigned(teamCodeToId)(d) {
      var i :| 0 <= i < |once.dispatches| && once.dispatches[i] == d;
      AssignSettles(db.dispatches[i], teamCodeToId);
    }
    FilterNone(once.dispatches, IsReassigned(teamCodeToId));
    var twice := AssignAll(once, teamCodeToId);
    assert twice.dispatches == once.dispatches by {
      forall i | 0 <= i < |once.dispatches| ensures twice.dispatches[i] == once.dispatches[i] {
        AssignSettles(db.dispatches[i], teamCodeToId);
      }
    }
  }
}
