/** The row annotation of components/ui/data-table.tsx (lines 96-140): the table's rows arrive
    ordered so that rows of one dispatch are usually adjacent; each row learns its position in
    its run of equal dispatch ids, the size of its dispatch's group, whether it opens or closes
    the run, and an alternating background. */
module DataTable {
  import opened Seqs
  import opened Model
  import opened Grouping

  /** `row.original?.dispatchId || ""`: a missing or empty id reads as "". */
  function RowKey(dispatchId: Option<string>): string
  {
    if Truthy(dispatchId) then dispatchId.value else ""
  }

  /** What `groupCounts` holds once every row has been counted: each id seen, with the number
      of rows carrying it. */
  function Counts(rows: seq<Option<string>>): (c: map<string, nat>)
    ensures forall k :: k in c <==> k in Keys(rows, RowKey)
  {
    map k | k in Keys(rows, RowKey) :: |Members(rows, RowKey, k)|
  }

  /** `m` holds the counts of the rows `rows`. */
  ghost predicate CountsHold(rows: seq<Option<string>>, m: map<string, nat>)
  {
    && (forall k :: k in m <==> k in Keys(rows, RowKey))
    && forall k :: k in m ==> m[k] == |Members(rows, RowKey, k)|
  }

  lemma CountsHoldIsCounts(rows: seq<Option<string>>, m: map<string, nat>)
    requires CountsHold(rows, m)
    ensures m == Counts(rows)
  {
  }

  /** `groupCounts[id] = (groupCounts[id] || 0) + 1`. */
  function Bump(m: map<string, nat>, k: string): (r: map<string, nat>)
    ensures forall j :: j in r <==> j in m || j == k
    ensures r[k] == (if k in m then m[k] else 0) + 1
    ensures forall j :: j in m && j != k ==> r[j] == m[j]
  {
    m[k := (if k in m then m[k] else 0) + 1]
  }

  /** Counting one more row adds one to its id's count. */
  lemma CountStep(rows: seq<Option<string>>, x: Option<string>, m: map<string, nat>)
    requires CountsHold(rows, m)
    ensures CountsHold(rows + [x], Bump(m, RowKey(x)))
  {
    CountStepKeys(rows, x, m);
    forall j | j in Bump(m, RowKey(x)) ensures Bump(m, RowKey(x))[j] == |Members(rows + [x], RowKey, j)| {
      CountOfKeyStep(rows, x, m, j);
    }
  }

  /** The ids counted after one more row are those of the longer sequence. */
  lemma CountStepKeys(rows: seq<Option<string>>, x: Option<string>, m: map<string, nat>)
    requires forall k :: k in m <==> k in Keys(rows, RowKey)
    ensures forall j :: j in Bump(m, RowKey(x)) <==> j in Keys(rows + [x], RowKey)
  {
    KeysSnoc(rows, x, RowKey);
  }

  /** The count of one id after one more row. */
  lemma CountOfKeyStep(rows: seq<Option<string>>, x: Option<string>, m: map<string, nat>, j: string)
    requires CountsHold(rows, m) && j in Bump(m, RowKey(x))
    ensures Bump(m, RowKey(x))[j] == |Members(rows + [x], RowKey, j)|
  {
    MembersSnoc(rows, x, RowKey, j);
    if j == RowKey(x) && j !in m {
      NewKeySnoc(rows, x, RowKey);
    }
  }

  /** The first `forEach`, filling `groupCounts`. */
  method CountGroups(rows: seq<Option<string>>) returns (groupCounts: map<string, nat>)
    ensures groupCounts == Counts(rows)
  {
    groupCounts := map[];
    for i := 0 to |rows|
      invariant CountsHold(rows[..i], groupCounts)
    {
      var dispatchId := RowKey(rows[i]);
      assert rows[..i + 1] == rows[..i] + [rows[i]];
      CountStep(rows[..i], rows[i], groupCounts);
      var previous := if dispatchId in groupCounts then groupCounts[dispatchId] else 0;
      groupCounts := groupCounts[dispatchId := previous + 1];
    }
    assert rows[..|rows|] == rows;
    CountsHoldIsCounts(rows, groupCounts);
  }

  /** The sum of the counts of the ids `ks`. */
  function SumCounts(c: map<string, nat>, ks: seq<string>): nat
    requires forall k :: k in ks ==> k in c
  {
    if ks == [] then 0 else c[ks[0]] + SumCounts(c, ks[1..])
  }

  lemma {:induction false} SumIsGroupSizes(rows: seq<Option<string>>, ks: seq<string>)
    requires forall k :: k in ks ==> k in Keys(rows, RowKey)
    ensures SumCounts(Counts(rows), ks) == GroupSizes(rows, RowKey, ks)
  {
    if ks != [] {
      SumIsGroupSizes(rows, ks[1..]);
    }
  }

  /** Every row is counted once: the counts add up to the number of rows. */
  lemma CountsSumToRows(rows: seq<Option<string>>)
    ensures SumCounts(Counts(rows), Keys(rows, RowKey)) == |rows|
  {
    SumIsGroupSizes(rows, Keys(rows, RowKey));
    GroupsPartition(rows, RowKey);
  }

  /** A row's own id is counted, at least once. */
  lemma OwnCount(rows: seq<Option<string>>, i: nat)
    requires i < |rows|
    ensures RowKey(rows[i]) in Counts(rows) && Counts(rows)[RowKey(rows[i])] >= 1
  {
    KeyListed(rows, RowKey, rows[i]);
    assert rows[i] in Members(rows, RowKey, RowKey(rows[i]));
  }

  /** `_groupInfo` with the two values the row's rendering also uses. */
  datatype GroupInfo = GroupInfo(
    position: nat, total: nat, isFirst: bool, groupIndex: nat, isLastInGroup: bool, bgColor: string)

  const BgColors: seq<string> := ["bg-emerald-50/40 dark:bg-emerald-900/10", "bg-blue-50/40 dark:bg-blue-900/10"]

  /** `currentDispatchId` when row `i` is reached: "" before the first row. */
  function Previous(keys: seq<string>, i: nat): string
    requires i < |keys|
  {
    if i == 0 then "" else keys[i - 1]
  }

  /** `dispatchId !== currentDispatchId`: row `i` opens a new run. */
  predicate Opens(keys: seq<string>, i: nat)
    requires i < |keys|
  {
    keys[i] != Previous(keys, i)
  }

  /** `positionInGroup` after row `i`. */
  function PositionAt(keys: seq<string>, i: nat): (p: nat)
    requires i < |keys|
    ensures p >= 1
  {
    if Opens(keys, i) then 1 else (if i == 0 then 0 else PositionAt(keys, i - 1)) + 1
  }

  /** `groupIndex` after row `i`. */
  function GroupIndexAt(keys: seq<string>, i: nat): nat
    requires i < |keys|
  {
    (if i == 0 then 0 else GroupIndexAt(keys, i - 1)) + (if Opens(keys, i) then 1 else 0)
  }

  /** `groupCounts[dispatchId] || 1`. */
  function Total(counts: map<string, nat>, k: string): nat
  {
    if k in counts && counts[k] != 0 then counts[k] else 1
  }

  /** `rows[index + 1]?.original?.dispatchId || ""`. */
  function NextKey(keys: seq<string>, i: nat): string
    requires i < |keys|
  {
    if i + 1 < |keys| then keys[i + 1] else ""
  }

  /** The annotation of row `i`. */
  function InfoAt(keys: seq<string>, counts: map<string, nat>, i: nat): GroupInfo
    requires i < |keys|
  {
    var total := Total(counts, keys[i]);
    var groupIndex := GroupIndexAt(keys, i);
    var position := PositionAt(keys, i);
    GroupInfo(position, total, position == 1, groupIndex, NextKey(keys, i) != keys[i],
              if total > 1 then BgColors[groupIndex % 2] else "")
  }

  /** The annotations of all rows. */
  function Infos(keys: seq<string>, counts: map<string, nat>): seq<GroupInfo>
  {
    seq(|keys|, i requires 0 <= i < |keys| => InfoAt(keys, counts, i))
  }

  /** The callback's arithmetic on the counters, stated on the row keys. */
  lemma InfoStep(keys: seq<string>, counts: map<string, nat>, index: nat, cur: string, gi: nat, pos: nat)
    requires index < |keys|
    requires index == 0 ==> cur == "" && gi == 0 && pos == 0
    requires index > 0 ==> cur == keys[index - 1] && gi == GroupIndexAt(keys, index - 1) && pos == PositionAt(keys, index - 1)
    ensures var gi', pos' := (if keys[index] != cur then gi + 1 else gi), (if keys[index] != cur then 1 else pos + 1);
      var total := Total(counts, keys[index]);
      && gi' == GroupIndexAt(keys, index) && pos' == PositionAt(keys, index)
      && InfoAt(keys, counts, index) ==
           GroupInfo(pos', total, pos' == 1, gi', NextKey(keys, index) != keys[index],
                     if total > 1 then BgColors[gi' % 2] else "")
  {
  }

  function KeysOf(rows: seq<Option<string>>): (keys: seq<string>)
    ensures |keys| == |rows|
    ensures forall i :: 0 <= i < |rows| ==> keys[i] == RowKey(rows[i])
  {
    seq(|rows|, i requires 0 <= i < |rows| => RowKey(rows[i]))
  }

  /** The `map` callback for row `index`: it updates `currentDispatchId`, `groupIndex` and
      `positionInGroup` (passed in and returned) and builds the row's annotation. */
  method AnnotateRow(rows: seq<Option<string>>, groupCounts: map<string, nat>, index: nat,
                     currentDispatchId: string, groupIndex: nat, positionInGroup: nat)
    returns (info: GroupInfo, currentDispatchId': string, groupIndex': nat, positionInGroup': nat)
    requires index < |rows|
    requires index == 0 ==> currentDispatchId == "" && groupIndex == 0 && positionInGroup == 0
    requires index > 0 ==> && currentDispatchId == RowKey(rows[index - 1])
                           && groupIndex == GroupIndexAt(KeysOf(rows), index - 1)
                           && positionInGroup == PositionAt(KeysOf(rows), index - 1)
    ensures info == InfoAt(KeysOf(rows), groupCounts, index)
    ensures currentDispatchId' == RowKey(rows[index])
    ensures groupIndex' == GroupIndexAt(KeysOf(rows), index)
    ensures positionInGroup' == PositionAt(KeysOf(rows), index)
  {
    ghost var keys := KeysOf(rows);
    InfoStep(keys, groupCounts, index, currentDispatchId, groupIndex, positionInGroup);
    var dispatchId := RowKey(rows[index]);
    assert dispatchId == keys[index];
    currentDispatchId', groupIndex', positionInGroup' := currentDispatchId, groupIndex, positionInGroup;
    if dispatchId != currentDispatchId {
      currentDispatchId' := dispatchId;
      groupIndex' := groupIndex + 1;
      positionInGroup' := 1;
    } else {
      positionInGroup' := positionInGroup + 1;
    }
    var totalInGroup := if dispatchId in groupCounts && groupCounts[dispatchId] != 0 then groupCounts[dispatchId] else 1;
    var bgColor := if totalInGroup > 1 then BgColors[groupIndex' % 2] else "";
    var nextDispatchId := if index + 1 < |rows| then RowKey(rows[index + 1]) else "";
    assert nextDispatchId == NextKey(keys, index);
    var isLastInGroup := nextDispatchId != dispatchId;
    var isFirstInGroup := positionInGroup' == 1;
    info := GroupInfo(positionInGroup', totalInGroup, isFirstInGroup, groupIndex', isLastInGroup, bgColor);
  }

  /** The whole block: count, then map every row through the callback, which carries
      `currentDispatchId`, `groupIndex` and `positionInGroup` from row to row. */
  method AnnotateRows(rows: seq<Option<string>>) returns (infos: seq<GroupInfo>)
    ensures |infos| == |rows|
    ensures forall i :: 0 <= i < |rows| ==> infos[i] == InfoAt(KeysOf(rows), Counts(rows), i)
  {
    var groupCounts := CountGroups(rows);
    var currentDispatchId := "";
    var groupIndex: nat := 0;
    var positionInGroup: nat := 0;
    infos := [];
    for index := 0 to |rows|
      invariant infos == Infos(KeysOf(rows), groupCounts)[..index]
      invariant index == 0 ==> currentDispatchId == "" && groupIndex == 0 && positionInGroup == 0
      invariant index > 0 ==> && currentDispatchId == RowKey(rows[index - 1])
                              && groupIndex == GroupIndexAt(KeysOf(rows), index - 1)
                              && positionInGroup == PositionAt(KeysOf(rows), index - 1)
    {
      var info;
      info, currentDispatchId, groupIndex, positionInGroup :=
        AnnotateRow(rows, groupCounts, index, currentDispatchId, groupIndex, positionInGroup);
      PrefixSnoc(Infos(KeysOf(rows), groupCounts), index);
      infos := infos + [info];
    }
  }

  /** `total` is the number of rows in the whole table with the row's id, not the length of
      its run. */
  lemma TotalIsGlobalCount(rows: seq<Option<string>>, i: nat)
    requires i < |rows|
    ensures InfoAt(KeysOf(rows), Counts(rows), i).total == |Members(rows, RowKey, RowKey(rows[i]))|
  {
    OwnCount(rows, i);
  }

  /** The position restarts at 1 exactly on the first row and on each change of id, and
      otherwise grows by one. */
  lemma PositionSteps(keys: seq<string>, i: nat)
    requires 0 < i < |keys|
    ensures PositionAt(keys, i) == if keys[i] != keys[i - 1] then 1 else PositionAt(keys, i - 1) + 1
    ensures PositionAt(keys, i) == 1 <==> keys[i] != keys[i - 1]
  {
  }

  /** The position counts the run: the `PositionAt` rows ending at `i` all carry `i`'s id, and
      the row just before them, if any, carries another. */
  lemma {:induction false} PositionIsRunLength(keys: seq<string>, i: nat)
    requires i < |keys|
    ensures PositionAt(keys, i) <= i + 1
    ensures forall j :: i - PositionAt(keys, i) < j <= i ==> keys[j] == keys[i]
    ensures i - PositionAt(keys, i) >= 0 ==> keys[i - PositionAt(keys, i)] != keys[i]
  {
    if i > 0 && !Opens(keys, i) {
      PositionIsRunLength(keys, i - 1);
    }
  }

  /** A leading run of rows without an id does not count as a group: `groupIndex` stays 0. */
  lemma {:induction false} LeadingBlankRun(keys: seq<string>, i: nat)
    requires i < |keys| && forall j :: 0 <= j <= i ==> keys[j] == ""
    ensures GroupIndexAt(keys, i) == 0
  {
    if i > 0 {
      LeadingBlankRun(keys, i - 1);
    }
  }

  /** `groupIndex` goes up by exactly one at each change of id and never otherwise. */
  lemma GroupIndexSteps(keys: seq<string>, i: nat)
    requires 0 < i < |keys|
    ensures GroupIndexAt(keys, i) == GroupIndexAt(keys, i - 1) + (if keys[i] != keys[i - 1] then 1 else 0)
  {
  }

  /** A row closes its run exactly when the next row opens one; the last row closes its run
      only when it has an id, since the missing next row reads as "". */
  lemma LastThenFirst(keys: seq<string>, counts: map<string, nat>, i: nat)
    requires i < |keys|
    ensures i + 1 < |keys| ==> (InfoAt(keys, counts, i).isLastInGroup <==> InfoAt(keys, counts, i + 1).isFirst)
    ensures i + 1 == |keys| ==> (InfoAt(keys, counts, i).isLastInGroup <==> keys[i] != "")
  {
  }

  /** Two neighbouring runs of different ids, both from groups of several rows, get different
      backgrounds; a row alone in its group gets none. */
  lemma BackgroundsAlternate(keys: seq<string>, counts: map<string, nat>, i: nat)
    requires 0 < i < |keys| && keys[i] != keys[i - 1]
    requires Total(counts, keys[i]) > 1 && Total(counts, keys[i - 1]) > 1
    ensures InfoAt(keys, counts, i).bgColor != InfoAt(keys, counts, i - 1).bgColor
    ensures InfoAt(keys, counts, i).bgColor != "" && InfoAt(keys, counts, i - 1).bgColor != ""
  {
    assert GroupIndexAt(keys, i) == GroupIndexAt(keys, i - 1) + 1;
  }

  lemma NoBackgroundAlone(keys: seq<string>, counts: map<string, nat>, i: nat)
    requires i < |keys| && Total(counts, keys[i]) <= 1
    ensures InfoAt(keys, counts, i).bgColor == ""
  {
  }
}
