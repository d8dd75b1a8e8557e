/** The report page of app/report/page.tsx: its `groupByDate` helper, which gathers the report's
    dispatches under their formatted day, and the condition for its "no data" message. */
module ReportPage {
  import opened Seqs
  import opened Model
  import opened Grouping
  import opened ReportByIds

  /** One `GroupedData` entry: the day key, the date of the dispatch that opened the group, and
      the group's dispatches. */
  datatype DateGroup = DateGroup(dateStr: string, originalDate: int, dispatches: seq<DispatchWithUnits>)

  /** `format(new Date(item.date), "dd/MM/yyyy")`; `dayOf` stands for the formatting. */
  function DayKey(dayOf: int -> string): DispatchWithUnits -> string
  {
    (g: DispatchWithUnits) => dayOf(g.dispatch.date)
  }

  /** The map entry of day `k` once every item has been seen. */
  function DateGroupOf(list: seq<DispatchWithUnits>, dayOf: int -> string, k: string): DateGroup
    requires k in Keys(list, DayKey(dayOf))
  {
    DateGroup(k, First(list, DayKey(dayOf), k).dispatch.date, Members(list, DayKey(dayOf), k))
  }

  /** `Array.from(groups.values())`: one entry per day, in order of first appearance. */
  function DayGroups(list: seq<DispatchWithUnits>, dayOf: int -> string): (gs: seq<DateGroup>)
    ensures |gs| == |Keys(list, DayKey(dayOf))|
    ensures forall i :: 0 <= i < |gs| ==> gs[i] == DateGroupOf(list, dayOf, Keys(list, DayKey(dayOf))[i])
  {
    var ks := Keys(list, DayKey(dayOf));
    seq(|ks|, i requires 0 <= i < |ks| => DateGroupOf(list, dayOf, ks[i]))
  }

  function OriginalDate(g: DateGroup): int
  {
    g.originalDate
  }

  /** The result of `groupByDate`: the day groups, sorted (stably) by `originalDate`. */
  function ByDate(list: seq<DispatchWithUnits>, dayOf: int -> string): (r: seq<DateGroup>)
    ensures SortedBy(r, OriginalDate)
    ensures forall g :: g in r <==> g in DayGroups(list, dayOf)
    ensures multiset(r) == multiset(DayGroups(list, dayOf))
  {
    SortByMembers(DayGroups(list, dayOf), OriginalDate);
    SortBy(DayGroups(list, dayOf), OriginalDate)
  }

  /** `groups` and its key order after the `forEach` has seen the items `s`. */
  ghost predicate MapHolds(s: seq<DispatchWithUnits>, dayOf: int -> string, m: map<string, DateGroup>, order: seq<string>)
  {
    && order == Keys(s, DayKey(dayOf))
    && (forall k :: k in m <==> k in order)
    && forall k :: k in order ==> m[k] == DateGroupOf(s, dayOf, k)
  }

  /** A later item of another day leaves a group as it was. */
  lemma DateGroupOfOther(s: seq<DispatchWithUnits>, x: DispatchWithUnits, dayOf: int -> string, k: string)
    requires k in Keys(s, DayKey(dayOf)) && k != dayOf(x.dispatch.date)
    ensures k in Keys(s + [x], DayKey(dayOf))
    ensures DateGroupOf(s + [x], dayOf, k) == DateGroupOf(s, dayOf, k)
  {
    FirstSnoc(s, x, DayKey(dayOf), k);
    MembersSnoc(s, x, DayKey(dayOf), k);
  }

  /** The entry the `forEach` body leaves for the item's day: the one created just before (`m`
      lacks the day), dated by the item, or the existing one, with the item pushed. */
  function Pushed(m: map<string, DateGroup>, x: DispatchWithUnits, dayOf: int -> string): DateGroup
  {
    var k := dayOf(x.dispatch.date);
    var entry := if k in m then m[k] else DateGroup(k, x.dispatch.date, []);
    entry.(dispatches := entry.dispatches + [x])
  }

  /** The key order after the body: a new day is appended. */
  function NextOrder(m: map<string, DateGroup>, order: seq<string>, x: DispatchWithUnits, dayOf: int -> string): seq<string>
  {
    if dayOf(x.dispatch.date) in m then order else order + [dayOf(x.dispatch.date)]
  }

  /** The pushed entry is the group of the item's day over the items seen so far: a new day's
      entry holds just the item and is dated by it, an existing entry grows by it. */
  lemma PushedIsGroup(s: seq<DispatchWithUnits>, x: DispatchWithUnits, dayOf: int -> string, m: map<string, DateGroup>, order: seq<string>)
    requires MapHolds(s, dayOf, m, order)
    ensures dayOf(x.dispatch.date) in Keys(s + [x], DayKey(dayOf))
    ensures Pushed(m, x, dayOf) == DateGroupOf(s + [x], dayOf, dayOf(x.dispatch.date))
  {
    var k := dayOf(x.dispatch.date);
    assert DayKey(dayOf)(x) == k;
    if k in order {
      FirstSnoc(s, x, DayKey(dayOf), k);
      MembersSnoc(s, x, DayKey(dayOf), k);
      assert m[k] == DateGroupOf(s, dayOf, k);
    } else {
      NewKeySnoc(s, x, DayKey(dayOf));
    }
  }

  /** The body keeps the map's keys equal to the first-appearance order of the days. */
  lemma KeysStep(s: seq<DispatchWithUnits>, x: DispatchWithUnits, dayOf: int -> string, m: map<string, DateGroup>, order: seq<string>)
    requires MapHolds(s, dayOf, m, order)
    ensures NextOrder(m, order, x, dayOf) == Keys(s + [x], DayKey(dayOf))
    ensures forall j :: j in m[dayOf(x.dispatch.date) := Pushed(m, x, dayOf)] <==> j in NextOrder(m, order, x, dayOf)
  {
    assert DayKey(dayOf)(x) == dayOf(x.dispatch.date);
    KeysSnoc(s, x, DayKey(dayOf));
  }

  /** The body leaves every entry equal to its group over the items seen so far. */
  lemma EntriesStep(s: seq<DispatchWithUnits>, x: DispatchWithUnits, dayOf: int -> string, m: map<string, DateGroup>, order: seq<string>)
    requires MapHolds(s, dayOf, m, order)
    requires NextOrder(m, order, x, dayOf) == Keys(s + [x], DayKey(dayOf))
    ensures forall j :: j in NextOrder(m, order, x, dayOf) ==>
      m[dayOf(x.dispatch.date) := Pushed(m, x, dayOf)][j] == DateGroupOf(s + [x], dayOf, j)
  {
    var k := dayOf(x.dispatch.date);
    forall j | j in NextOrder(m, order, x, dayOf) ensures m[k := Pushed(m, x, dayOf)][j] == DateGroupOf(s + [x], dayOf, j) {
      if j == k {
        PushedIsGroup(s, x, dayOf, m, order);
      } else {
        DateGroupOfOther(s, x, dayOf, j);
      }
    }
  }

  /** The body of the `forEach` keeps `MapHolds`. */
  lemma MapStep(s: seq<DispatchWithUnits>, x: DispatchWithUnits, dayOf: int -> string, m: map<string, DateGroup>, order: seq<string>)
    requires MapHolds(s, dayOf, m, order)
    ensures MapHolds(s + [x], dayOf, m[dayOf(x.dispatch.date) := Pushed(m, x, dayOf)], NextOrder(m, order, x, dayOf))
  {
    KeysStep(s, x, dayOf, m, order);
    EntriesStep(s, x, dayOf, m, order);
  }

  /** groupByDate. */
  method GroupByDate(list: seq<DispatchWithUnits>, dayOf: int -> string) returns (result: seq<DateGroup>)
    ensures result == ByDate(list, dayOf)
  {
    var groups: map<string, DateGroup> := map[];
    var order: seq<string> := [];
    for i := 0 to |list|
      invariant MapHolds(list[..i], dayOf, groups, order)
    {
      var item := list[i];
      var dateStr := dayOf(item.dispatch.date);
      assert list[..i + 1] == list[..i] + [item];
      MapStep(list[..i], item, dayOf, groups, order);
      if dateStr !in groups {
        groups := groups[dateStr := DateGroup(dateStr, item.dispatch.date, [])];
        order := order + [dateStr];
      }
      var entry := groups[dateStr];
      groups := groups[dateStr := entry.(dispatches := entry.dispatches + [item])];
    }
    assert list[..|list|] == list;
    var values := seq(|order|, j requires 0 <= j < |order| => groups[order[j]]);
    assert values == DayGroups(list, dayOf);
    result := SortBy(values, OriginalDate);
  }

  /** No day has two groups. */
  lemma DaysDistinct(list: seq<DispatchWithUnits>, dayOf: int -> string)
    ensures var r := ByDate(list, dayOf);
      forall i, j :: 0 <= i < j < |r| ==> r[i].dateStr != r[j].dateStr
  {
    var gs := DayGroups(list, dayOf);
    var r := ByDate(list, dayOf);
    assert Distinct(gs) by {
      forall i, j | 0 <= i < j < |gs| ensures gs[i] != gs[j] {
        assert gs[i].dateStr != gs[j].dateStr;
      }
    }
    PermutationDistinct(r, gs);
    forall i, j | 0 <= i < j < |r| ensures r[i].dateStr != r[j].dateStr {
      assert r[i] in gs && r[j] in gs;
      var p :| 0 <= p < |gs| && gs[p] == r[i];
      var q :| 0 <= q < |gs| && gs[q] == r[j];
      assert p != q;
    }
  }

  /** Each group is non-empty, dated by its first item, and holds exactly the items of its
      day in input order, so every item is in the group of its own day and no other. */
  lemma GroupShape(list: seq<DispatchWithUnits>, dayOf: int -> string)
    ensures forall g :: g in ByDate(list, dayOf) ==>
      && g.dispatches == Members(list, DayKey(dayOf), g.dateStr)
      && g.dispatches != [] && g.originalDate == g.dispatches[0].dispatch.date
  {
    var gs := DayGroups(list, dayOf);
    var ks := Keys(list, DayKey(dayOf));
    forall g | g in gs
      ensures g.dispatches == Members(list, DayKey(dayOf), g.dateStr)
      ensures g.dispatches != [] && g.originalDate == g.dispatches[0].dispatch.date
    {
      var i :| 0 <= i < |gs| && gs[i] == g;
      assert ks[i] in ks;
      MembersOfKey(list, DayKey(dayOf), ks[i]);
    }
  }

  /** There is a group for a day exactly when some item falls on that day. */
  lemma GroupPerDay(list: seq<DispatchWithUnits>, dayOf: int -> string, k: string)
    ensures (exists g :: g in ByDate(list, dayOf) && g.dateStr == k) <==> exists x :: x in list && dayOf(x.dispatch.date) == k
  {
    var gs := DayGroups(list, dayOf);
    var ks := Keys(list, DayKey(dayOf));
    if exists x :: x in list && dayOf(x.dispatch.date) == k {
      var x :| x in list && dayOf(x.dispatch.date) == k;
      KeyListed(list, DayKey(dayOf), x);
      assert k in ks;
      var i :| 0 <= i < |ks| && ks[i] == k;
      assert gs[i] in gs;
    }
    if exists g :: g in gs && g.dateStr == k {
      var g :| g in gs && g.dateStr == k;
      var i :| 0 <= i < |gs| && gs[i] == g;
      assert ks[i] in ks;
      var x :| x in list && DayKey(dayOf)(x) == k;
    }
  }

  /** `imports.length === 0 && exports.length === 0`: the page shows its "no data" message. */
  predicate ShowsEmptyMessage(r: Report)
  {
    r.imports == [] && r.exports == []
  }

  /** A unit that can appear in a report: its dispatch is an import or an export. */
  predicate Reportable(db: Db, t: Transformer)
  {
    DispatchOf(db, t).Some? && DispatchOf(db, t).value.dispatchType in {Import, Export}
  }

  /** Every group of the report holds at least one unit. */
  lemma GroupsNonEmpty(rows: seq<UnitWithDispatch>, g: DispatchWithUnits)
    requires g in Grouped(rows)
    ensures g.transformers != []
  {
    var ks := Keys(rows, DispatchIdOf);
    var i :| 0 <= i < |Grouped(rows)| && Grouped(rows)[i] == g;
    assert ks[i] in ks;
    MembersOfKey(rows, DispatchIdOf, ks[i]);
  }

  /** A selected unit of an import or an export puts its dispatch in the report. */
  lemma ReportableShown(db: Db, ids: seq<Id>, t: Transformer)
    requires WellFormed(db) && t in db.transformers && t.id in ids && Reportable(db, t)
    ensures !ShowsEmptyMessage(Split(Grouped(Fetched(db, ids))))
  {
    var g := UnitGroup(db, ids, t);
    assert g in Split(Grouped(Fetched(db, ids))).imports || g in Split(Grouped(Fetched(db, ids))).exports;
  }

  /** The group of a selected unit's dispatch is among the groups. */
  lemma UnitGroup(db: Db, ids: seq<Id>, t: Transformer) returns (g: DispatchWithUnits)
    requires WellFormed(db) && t in db.transformers && t.id in ids && DispatchOf(db, t).Some?
    ensures g in Grouped(Fetched(db, ids)) && g.dispatch == DispatchOf(db, t).value
  {
    var rows := Fetched(db, ids);
    var ks := Keys(rows, DispatchIdOf);
    FetchedAll(db, ids, t);
    var x :| x in rows && x.unit == t;
    var k := x.dispatch.id;
    KeyListed(rows, DispatchIdOf, x);
    var i :| 0 <= i < |ks| && ks[i] == k;
    g := Grouped(rows)[i];
    GroupContents(db, ids, k);
    assert g.dispatch == DispatchOf(db, t).value by {
      FindDispatchIff(db, g.dispatch);
    }
  }

  /** A dispatch in the report has a selected unit, which is of an import or an export. */
  lemma ShownReportable(db: Db, ids: seq<Id>)
    requires WellFormed(db) && !ShowsEmptyMessage(Split(Grouped(Fetched(db, ids))))
    ensures exists t :: t in db.transformers && t.id in ids && Reportable(db, t)
  {
    var rows := Fetched(db, ids);
    var r := Split(Grouped(rows));
    var g := if r.imports != [] then r.imports[0] else r.exports[0];
    assert g in r.imports || g in r.exports;
    assert g in Grouped(rows);
    GroupsNonEmpty(rows, g);
    GroupsAreDispatches(db, ids);
    var t := g.transformers[0];
    assert t in g.transformers;
    assert DispatchOf(db, t) == Some(g.dispatch) by {
      FindDispatchIff(db, g.dispatch);
    }
    assert Reportable(db, t);
  }

  /** The "no data" message shows exactly when no selected unit belongs to an import or an
      export. */
  lemma EmptyMessageIff(db: Db, ids: seq<Id>)
    requires WellFormed(db)
    ensures ShowsEmptyMessage(Split(Grouped(Fetched(db, ids)))) <==>
      forall t :: t in db.transformers && t.id in ids ==> !Reportable(db, t)
  {
    if exists t :: t in db.transformers && t.id in ids && Reportable(db, t) {
      var t :| t in db.transformers && t.id in ids && Reportable(db, t);
      ReportableShown(db, ids, t);
    }
    if !ShowsEmptyMessage(Split(Grouped(Fetched(db, ids)))) {
      ShownReportable(db, ids);
    }
  }
}
