# Transformer dispatch bookkeeping, modelled in Dafny

This project models the core of a web application that keeps track of distribution transformers
(MBA units) moving between a utility's warehouse and its field teams. The units travel on
dispatch documents. Each dispatch has:

- a direction, IMPORT or EXPORT;
- a document kind: an official letter (CV) or a provisional submission (TTr);
- a CBM flag, which marks units sent out for lab testing;
- two optional links: a TTr's `linkedCvId` and an import's `sourceDispatchId`.

Each dispatch owns its transformer units. A unit has a serial number, a capacity, a test result
and an `isProcessed` marker.

The database becomes an in-memory object, `Store.Store`. Its field `db` holds the dispatches
and units in storage order. Its field `nextId` stands for the id generator. Each server action
becomes one of two things:

- a method that reassigns `db`, for actions that write;
- a function of a `Snapshot`, for actions that only read. A snapshot is either the store's
  contents or `Unavailable`, which models the storage errors the actions catch.

Every method is proved against a specification function of the old state. The properties the
application relies on are proved about those functions. Among them:

- the capacity comparison matches multisets;
- the cascade on delete;
- full replacement of units and links on update;
- grouping in first-appearance order;
- the route guard never loops;
- the team-assignment script is idempotent.

Modules follow the source files: one module per action file. `Model`, `Store`, `Seqs`,
`Grouping` and `Text` hold the shared records, store writes and sequence and string helpers.

Where the code and its documentation disagree, the model follows the code:

- A CV promoted from a TTr is always created with type IMPORT, whatever the TTr's direction
  (`UpdateDispatch.UpdatePromotes`).
- The unlinked-TTr query does not filter by direction. It returns IMPORT and EXPORT
  submissions alike (`UnlinkedTtrs.UnlinkedListedWhateverType`).
- The query for incomplete import letters does not exclude CBM dispatches
  (`GetDispatches.IncompleteImports`).
- The dashboard's `unreturned` figure is a plain difference and can be negative
  (`Dashboard.UnreturnedCanBeNegative`).

## Model

| member | source | states |
|---|---|---|
| Capacity.CapacityKey | app/actions/get-dispatches.ts:9 | a unit's key is "unknown" exactly when its capacity is null or empty (or is the text "unknown"); otherwise it is the capacity |
| Capacity.CreateCapacityMap | app/actions/get-dispatches.ts:6-13 | the loop builds the capacity map: its keys are exactly the units' capacity keys, each mapped to the number of units carrying it |
| Capacity.CapacityCountsTotal | app/actions/get-dispatches.ts:6-13 | the counts of a capacity map add up to the number of units: every unit is counted exactly once |
| Capacity.CapacityCountsMeaning | app/actions/get-dispatches.ts:8-11 | a key is in the map iff some unit has it, and its count is the number of units with that key |
| Capacity.CapacityCountsSnoc | app/actions/get-dispatches.ts:10 | counting one more unit adds one under its key (starting from 0 for a new key) and changes nothing else |
| Capacity.IsCapacityMapEqual | app/actions/get-dispatches.ts:16-26 | the comparison returns true iff both maps have the same key set and the same count under every key |
| Capacity.SameCapacitiesIffSameMultiset | app/actions/get-dispatches.ts:16-26 | two unit lists have equal capacity maps iff the multisets of their capacity keys are equal |
| Capacity.SameCapacitiesReflexiveSymmetric | app/actions/get-dispatches.ts:16-26 | the map comparison is reflexive, also on two empty lists, and symmetric |
| Capacity.CapacitiesOfPermutation | app/actions/get-dispatches.ts:52-62 | the order in which units are listed never changes the comparison |
| Capacity.DifferentSizesDiffer | app/actions/get-dispatches.ts:16-26 | lists of different lengths never have equal capacity maps |
| GetDispatches.LinkedExports | app/actions/get-dispatches.ts:43-47 | a letter's `exportedDispatches` are exactly the stored dispatches whose sourceDispatchId is its id |
| GetDispatches.ReturnedCountIsUnitTotal | app/actions/get-dispatches.ts:71 | the `reduce` over the linked dispatches returns the start value plus the total number of their units |
| GetDispatches.IncompleteImports | app/actions/get-dispatches.ts:32-62 | exactly the IMPORT CV dispatches whose capacity map differs from that of all linked dispatches' units, CBM ones included, newest date first |
| GetDispatches.OverReturnIsIncomplete | app/actions/get-dispatches.ts:52-62 | a letter with more units returned than received is still incomplete |
| GetDispatches.ExactReturnCompletes | app/actions/get-dispatches.ts:52-62 | a letter whose linked dispatches return the same capacities, in any order, is complete |
| GetDispatches.Summarize | app/actions/get-dispatches.ts:64-72 | a summary carries the letter's id, dispatchNumber, date and fileUrl, its own unit count, and as returnedCount the total units of its linked dispatches |
| GetDispatches.GetImportDispatches | app/actions/get-dispatches.ts:30-77 | one summary per incomplete import letter, in order, each with that letter's id, number, date, file, unit count and returned-unit total; a storage error yields the empty list |
| GetDispatches.PendingCbmExports | app/actions/get-dispatches.ts:83-112 | exactly the EXPORT CBM dispatches that no IMPORT names as its source, newest date first |
| GetDispatches.SummarizeCbm | app/actions/get-dispatches.ts:114-128 | the row copies the dispatch's id, number, date, documentType, isCBM and fileUrl, and holds one view (serial, capacity, model, note, test result) of each of its units, in order, with their count |
| GetDispatches.GetExportCBMDispatches | app/actions/get-dispatches.ts:81-134 | one entry per pending CBM export, in order, flagged CBM, carrying every copied field of its dispatch and a view of each of its units; a storage error yields the empty list |
| GetDispatches.FailedRow | app/actions/get-dispatches.ts:156-165 | a row carries the unit's own fields and its dispatch's number and date |
| GetDispatches.FailedCbmUnits | app/actions/get-dispatches.ts:139-154 | exactly the units with result FAIL, not processed, whose dispatch is an IMPORT CBM, newest first |
| GetDispatches.GetFailedCBMTransformers | app/actions/get-dispatches.ts:137-170 | one row per failed CBM unit, in order; a storage error yields the empty list |
| GetDispatches.MarkProcessed | app/actions/get-dispatches.ts:175-178 | the unit with that id gets isProcessed true; every dispatch and every other unit stays as it was, in place |
| GetDispatches.MarkProcessedIdempotent | app/actions/get-dispatches.ts:173-179 | marking a unit twice is the same as marking it once |
| GetDispatches.MarkedUnitLeavesFailedList | app/actions/get-dispatches.ts:139-147 | after marking, the marked unit is no longer a failed CBM unit and every other unit keeps its status |
| GetDispatches.MarkTransformerProcessed | app/actions/get-dispatches.ts:173-184 | with no storage fault an existing id succeeds and the store becomes the marked store; a missing id or a storage fault fails and leaves the store unchanged |
| ValidateSerial.StillCountsUnlessFailedAndProcessed | app/actions/validate-serial.ts:35-39 | the OR filter keeps a unit exactly unless it failed testing and has been processed |
| ValidateSerial.Conflicts | app/actions/validate-serial.ts:25-49 | exactly the stored units whose serial is listed, whose dispatch has the current type and is not CBM, and which the OR filter keeps |
| ValidateSerial.Report | app/actions/validate-serial.ts:51-55 | an entry carries the unit's serial and its dispatch's number and type |
| ValidateSerial.CheckDuplicateSerials | app/actions/validate-serial.ts:11-62 | with isCBM the result is empty whatever the store holds; a storage error gives the empty list; otherwise one entry per conflicting unit, each with a listed serial and the current type |
| ValidateSerial.NoCbmNoProcessedFailures | app/actions/validate-serial.ts:32-39 | no reported unit comes from a CBM dispatch or is a processed failure |
| ValidateSerial.ConflictReported | app/actions/validate-serial.ts:25-40 | every listed-serial unit of a non-CBM dispatch of the current type that is not a processed failure is reported |
| UpdateTransformer.Edited | app/actions/update-transformer.ts:23-31 | the four edited fields take the new values; id, dispatch, test result, processed flag, image and creation time are kept |
| UpdateTransformer.ApplyEditTouchesOnlyThatUnit | app/actions/update-transformer.ts:23-31 | the edit changes only the unit with that id; every dispatch and every other unit stays as it was |
| UpdateTransformer.ApplyEditIdempotent | app/actions/update-transformer.ts:23-31 | applying the same edit twice is the same as applying it once |
| UpdateTransformer.Update | app/actions/update-transformer.ts:15-40 | an empty serial fails with nothing changed; a missing id or a storage fault fails with nothing changed; otherwise success, with the store edited (null capacity, model or note stored as null) |
| UnlinkedTtrs.UnlinkedTtrs | app/actions/get-unlinked-ttrs.ts:10-26 | exactly the TTr dispatches with no linked CV, of either type, latest date first |
| UnlinkedTtrs.GetUnlinkedTtrs | app/actions/get-unlinked-ttrs.ts:8-31 | success with each unlinked TTr and its units, in order; a storage error gives failure with no data |
| UnlinkedTtrs.UnlinkedListedWhateverType | app/actions/get-unlinked-ttrs.ts:12-13 | a stored dispatch is listed iff it is a TTr with no linked CV, whether IMPORT or EXPORT |
| DeleteDispatch.Detach | app/actions/delete-dispatch.ts:9-11 | a surviving dispatch changes only in its references to the deleted one, which become null |
| DeleteDispatch.DeleteCascade | app/actions/delete-dispatch.ts:8-11 | after the delete the units are those not owned by the deleted dispatch, and the dispatches are the others, detached |
| DeleteDispatch.DeleteCascadeEffect | app/actions/delete-dispatch.ts:8-11 | the delete keeps the store well-formed, removes exactly that id and all its units, and leaves every other dispatch's units as they were |
| DeleteDispatch.DeleteKeepsWellFormed | app/actions/delete-dispatch.ts:8-11 | no id is duplicated, no unit loses its owner and no reference dangles after the delete |
| DeleteDispatch.DeleteKeepsOthers | app/actions/delete-dispatch.ts:9-11 | every other dispatch is still found under its id, changed only in references to the deleted one |
| DeleteDispatch.Delete | app/actions/delete-dispatch.ts:6-18 | with no storage fault an existing id succeeds with the cascade applied; a missing id or a storage fault fails and leaves the store unchanged |
| DeleteDispatch.DeleteTwiceFails | app/actions/delete-dispatch.ts:9-18 | after a delete the id is gone, so deleting it again fails |
| UpdateDispatch.Issued | app/actions/update-dispatch.ts:44-121 | the writes issued: the dispatch row, the unit delete and the unit create always; the link clearing for a CV; the link setting for a CV with linked TTr ids; the letter creation and the TTr's link for a promotion |
| UpdateDispatch.WriteScalarsEffect | app/actions/update-dispatch.ts:44-55 | the first write keeps the store well-formed and every unit, and gives the dispatch its new number, date, kind, flag, file and source; an empty transaction date leaves the stored one |
| UpdateDispatch.ReplaceUnitsEffect | app/actions/update-dispatch.ts:58-72 | after the delete and create, the dispatch's units are exactly the new ones and every other dispatch keeps its units |
| UpdateDispatch.ClearLinksEffect | app/actions/update-dispatch.ts:77-80 | after clearing, no dispatch is linked to the letter |
| UpdateDispatch.SetLinksEffect | app/actions/update-dispatch.ts:83-93 | after clearing and setting, a dispatch is linked to the letter iff its id is listed and it is a TTr |
| UpdateDispatch.RelinkedEffect | app/actions/update-dispatch.ts:75-94 | for a CV, afterwards the dispatches linked to it are exactly the listed TTr documents (earlier links replaced, not merged); nothing but links changes |
| UpdateDispatch.LinkTtrEffect | app/actions/update-dispatch.ts:118-121 | the TTr now points at the new letter; every other dispatch and every unit is unchanged |
| UpdateDispatch.Update | app/actions/update-dispatch.ts:33-132 | the action's outcome, store and id counter are those of the write sequence: validation, then each write in turn until the first that fails |
| UpdateDispatch.UpdateUnits | app/actions/update-dispatch.ts:58-122 | writes 2 to 7 from the store after the first write |
| UpdateDispatch.UpdateLinks | app/actions/update-dispatch.ts:75-122 | writes 4 to 7 from the store after the units were replaced |
| UpdateDispatch.Promote | app/actions/update-dispatch.ts:97-122 | the creation of the letter with copies of the units, then the link |
| UpdateDispatch.LinkToLetter | app/actions/update-dispatch.ts:118-121 | the last write, linking the TTr to the new letter |
| UpdateDispatch.UpdateRejectsInvalid | app/actions/update-dispatch.ts:34-38 | an invalid form fails before any write: store and counter unchanged |
| UpdateDispatch.UpdateSucceedsIff | app/actions/update-dispatch.ts:33-132 | the action succeeds iff the form is valid, the store accepts the first write, a promotion's letter date reads, and none of the writes issued fails |
| UpdateDispatch.LinksUpdatedSucceedsIff | app/actions/update-dispatch.ts:75-122 | past the unit writes, success iff no link write issued fails and a promotion's letter date reads |
| UpdateDispatch.SameButLinksFind | app/actions/update-dispatch.ts:75-94 | after link writes each dispatch is found with only its link changed |
| UpdateDispatch.PromotedEffect | app/actions/update-dispatch.ts:97-122 | a successful promotion adds one IMPORT CV under the next id with copies of the units (no test result or image), links the TTr to it, and changes no other dispatch's units |
| UpdateDispatch.RewrittenEffect | app/actions/update-dispatch.ts:44-72 | writes 1 to 3 keep the store well-formed, rewrite the dispatch's fields and make its units exactly the form's rows, other dispatches' units unchanged |
| UpdateDispatch.UpdatedSplit | app/actions/update-dispatch.ts:44-94 | a successful update passed writes 1 to 3 and continues from the rewritten store |
| UpdateDispatch.UpdatedSuccess | app/actions/update-dispatch.ts:33-72 | a successful update had a valid form and an accepted first write |
| UpdateDispatch.LinksUpdatedSuccess | app/actions/update-dispatch.ts:75-122 | successful link writes end with the re-linked store, followed by the promotion when the form promotes |
| UpdateDispatch.UpdateReplacesUnits | app/actions/update-dispatch.ts:58-72 | after success the dispatch's units are exactly the input rows, in order, keeping test result and image; every other existing dispatch keeps its units |
| UpdateDispatch.UpdateWritesFields | app/actions/update-dispatch.ts:44-55 | after success the dispatch has the new number and date, kind defaulting to CV, CBM flag defaulting to false, file defaulting to ""; an empty transaction date or absent source leaves the stored value; no other field changes except links |
| UpdateDispatch.UpdateRelinksCv | app/actions/update-dispatch.ts:75-94 | after a successful CV update the dispatches linked to it are exactly the listed ids that are TTr documents; listed non-TTr ids stay unlinked |
| UpdateDispatch.UpdatePromotes | app/actions/update-dispatch.ts:97-122 | after a successful promotion one new dispatch exists: an IMPORT CV with the letter's number and date, and the TTr points at it |
| UpdateDispatch.UpdatePromotedUnits | app/actions/update-dispatch.ts:106-113 | the new letter owns copies of the input rows with serial, capacity, model and note only |
| UpdateDispatch.PromotionSplit | app/actions/update-dispatch.ts:97-122 | a successful promoting update continues from a store holding every original dispatch |
| UpdateDispatch.UpdateWithoutPromotion | app/actions/update-dispatch.ts:97 | without both letter number and date no dispatch is created |
| UpdateDispatch.UpdateFaultKeepsEarlierWrites | app/actions/update-dispatch.ts:42-131 | a failure of the unit creation returns failure and keeps the earlier writes: the new fields stay and the dispatch has no units |
| ImportDispatch.SearchResults | app/actions/import-dispatch.ts:25-38 | at most five stored dispatches whose number contains the query, newest createdAt first |
| ImportDispatch.SearchDispatches | app/actions/import-dispatch.ts:21-44 | a query shorter than two characters or a storage error gives []; otherwise at most five matches, newest first, each with its own units |
| ImportDispatch.SearchKeepsNewest | app/actions/import-dispatch.ts:34-37 | a matching dispatch left out means five results came back, none older than it |
| ImportDispatch.ImportedRow | app/actions/import-dispatch.ts:55-69 | the new dispatch is found under its id: type IMPORT, file defaulting to "", kind CV, not CBM, owning exactly one copy of each input row, in order |
| ImportDispatch.ImportedKeepsOthers | app/actions/import-dispatch.ts:55-69 | the insert keeps the store well-formed, adds exactly the new id, and leaves every other dispatch's units unchanged |
| ImportDispatch.CreateImportDispatch | app/actions/import-dispatch.ts:46-78 | invalid input fails without writing; a storage error fails without writing; otherwise success with the imported store |
| ExportDispatch.ExportedRow | app/actions/export-dispatch.ts:41-60 | the new dispatch: type EXPORT, file "", kind defaulting to CV, CBM flag defaulting to false, the given source, owning exactly one copy of each input row, in order |
| ExportDispatch.ExportedKeepsOthers | app/actions/export-dispatch.ts:41-60 | the insert keeps the store well-formed, adds exactly the new id, and leaves every other dispatch's units unchanged |
| ExportDispatch.CreateExportDispatch | app/actions/export-dispatch.ts:28-68 | invalid input fails without writing; a storage error fails without writing; otherwise success with the exported store |
| ReportByIds.Fetched | app/actions/get-report-by-ids.ts:12-26 | the fetched rows are requested units with their own dispatch, in ascending order of dispatch date |
| ReportByIds.JoinSorted | app/actions/get-report-by-ids.ts:21-25 | joining units sorted by their dispatch's date gives rows sorted by date |
| ReportByIds.FetchedAll | app/actions/get-report-by-ids.ts:12-26 | in a well-formed store every requested unit is fetched |
| ReportByIds.Grouped | app/actions/get-report-by-ids.ts:34-47 | one group per dispatch, in the order its first unit was met, holding that dispatch and its fetched units |
| ReportByIds.GroupOfOther | app/actions/get-report-by-ids.ts:36-45 | a later unit of another dispatch leaves a group as it was |
| ReportByIds.PushedIsGroup | app/actions/get-report-by-ids.ts:38-44 | creating the entry when absent and pushing the unit yields the group of the longer row list |
| ReportByIds.KeysStep | app/actions/get-report-by-ids.ts:38-43 | the map's insertion order after one more unit is the first-appearance order of the longer row list |
| ReportByIds.MapStep | app/actions/get-report-by-ids.ts:36-45 | one iteration of `forEach` keeps the map equal to the grouping of the rows seen so far |
| ReportByIds.GroupByDispatch | app/actions/get-report-by-ids.ts:34-47 | the loop over the rows returns exactly the first-appearance grouping |
| ReportByIds.Split | app/actions/get-report-by-ids.ts:49-50 | imports are exactly the IMPORT groups and exports exactly the EXPORT groups |
| ReportByIds.GetReportDataByIds | app/actions/get-report-by-ids.ts:5-63 | an absent or empty list gives two empty lists without reading; a storage error gives failure; otherwise the split grouping of the fetched units |
| ReportByIds.InGroup | app/actions/get-report-by-ids.ts:44 | a unit is in a dispatch's group iff it was fetched under that dispatch |
| ReportByIds.GroupContents | app/actions/get-report-by-ids.ts:36-45 | a group holds its stored dispatch and exactly the requested units of it |
| ReportByIds.GroupsDistinct | app/actions/get-report-by-ids.ts:34-47 | no dispatch has two groups, so each lands in at most one list |
| ReportByIds.GroupsAreDispatches | app/actions/get-report-by-ids.ts:36-45 | every group holds a stored dispatch and exactly its requested units |
| ReportByIds.GroupsOrderedAndComplete | app/actions/get-report-by-ids.ts:21-47 | groups come in ascending dispatch date, and their sizes add up to the number of fetched units |
| ReportData.AllWithUnits | app/actions/get-report-data.ts:21-23 | each dispatch paired with its own units, in order |
| ReportData.DayDispatches | app/actions/get-report-data.ts:14-27 | exactly the dispatches dated within the window, each with its units, in ascending date |
| ReportData.GetDailyReportData | app/actions/get-report-data.ts:5-42 | a storage error gives failure; otherwise imports are exactly the IMPORT dispatches of the day and exports exactly the EXPORT ones; other types appear in neither |
| ReportData.DailyReportOrdered | app/actions/get-report-data.ts:24-30 | both lists keep ascending date order |
| ReportPage.DayGroups | app/report/page.tsx:137-147 | there is one group per distinct day label, in first-seen order, and each is the group built for that label |
| ReportPage.ByDate | app/report/page.tsx:147 | the groups are ordered by their first dispatch's date, ascending, and are exactly the per-day groups (same multiset) |
| ReportPage.DateGroupOfOther | app/report/page.tsx:139-145 | pushing a dispatch of another day leaves an existing day's group unchanged |
| ReportPage.PushedIsGroup | app/report/page.tsx:141-145 | after one more dispatch, the entry under its day is that day's group of the longer list |
| ReportPage.KeysStep | app/report/page.tsx:141-143 | the map's key order after one step is the first-seen day order of the longer list |
| ReportPage.EntriesStep | app/report/page.tsx:141-145 | after one step every entry of the map is its day's group of the longer list |
| ReportPage.MapStep | app/report/page.tsx:139-146 | one iteration of the forEach keeps the map equal to the per-day groups of the prefix seen so far |
| ReportPage.GroupByDate | app/report/page.tsx:137-148 | the loop over the list followed by the sort returns exactly the date-ordered per-day groups |
| ReportPage.DaysDistinct | app/report/page.tsx:137-148 | no two groups of the result carry the same day label |
| ReportPage.GroupShape | app/report/page.tsx:141-145 | each group holds exactly the dispatches of its day, in list order, is non-empty, and its originalDate is the date of its first dispatch |
| ReportPage.GroupPerDay | app/report/page.tsx:137-148 | a group labelled k exists iff some dispatch of the list falls on day k |
| ReportPage.GroupsNonEmpty | app/actions/get-report-by-ids.ts:36-45 | every dispatch group of the report holds at least one unit |
| ReportPage.ReportableShown | app/report/page.tsx:286 | if a selected unit belongs to an import or export dispatch, the page does not show its "no data" message |
| ReportPage.UnitGroup | app/actions/get-report-by-ids.ts:36-45 | a selected unit with a dispatch lands in a group whose dispatch is its own |
| ReportPage.ShownReportable | app/report/page.tsx:286 | if the "no data" message is not shown, some selected unit belongs to an import or export dispatch |
| ReportPage.EmptyMessageIff | app/report/page.tsx:286 | the "no data" message is shown iff no selected unit belongs to an import or export dispatch |
| Dashboard.CountOfType | app/actions/dashboard.ts:7-21 | the count of units whose dispatch has a type is at most the number of units, and is zero iff no unit has a dispatch of that type |
| Dashboard.CountIsFilterLength | app/actions/dashboard.ts:7-21 | the count equals the length of the units filtered by the relation filter |
| Dashboard.CountAppend | app/actions/dashboard.ts:7-21 | counting is additive over concatenated unit lists |
| Dashboard.CountsDisjoint | app/actions/dashboard.ts:7-21 | imported plus exported units never exceed all units: no unit is counted in both |
| Dashboard.StatsOf | app/actions/dashboard.ts:7-41 | totalImported and totalExported are the per-type counts and unreturned plus totalExported is totalImported |
| Dashboard.RecentUnits | app/actions/dashboard.ts:23-31 | at most 20 units, newest createdAt first, each paired with its own stored dispatch |
| Dashboard.RecentSorted | app/actions/dashboard.ts:25-30 | joining the units with their dispatches keeps the newest-first order |
| Dashboard.RecentKeepsAll | app/actions/dashboard.ts:23-31 | the recent list is the first min(20, n) units of the newest-first order, none dropped by the dispatch join |
| Dashboard.RecentAreNewest | app/actions/dashboard.ts:23-31 | the list has min(20, n) entries, and any unit not in it is no newer than every unit listed |
| Dashboard.RowOf | app/actions/dashboard.ts:43-53 | a recent row copies the unit's id, serial, capacity, model and note and its dispatch's id, number, date and type |
| Dashboard.GetDashboardStats | app/actions/dashboard.ts:5-59 | a failed query yields the error result; otherwise the stats and one row per recent unit, in order, with every field of the unit and of its own dispatch that the mapping copies |
| Dashboard.UnreturnedCanBeNegative | app/actions/dashboard.ts:34 | unreturned is a plain difference: one exported unit and no import give -1 |
| DataTable.Counts | components/ui/data-table.tsx:102-106 | the count map's keys are exactly the row keys (a missing dispatchId counted under "") |
| DataTable.CountsHoldIsCounts | components/ui/data-table.tsx:102-106 | any map whose keys are the row keys and whose entries are the group sizes is the count map |
| DataTable.Bump | components/ui/data-table.tsx:105 | `(groupCounts[k] \|\| 0) + 1`: the key is added or incremented by one, every other entry unchanged |
| DataTable.CountStep | components/ui/data-table.tsx:103-106 | counting one more row keeps the map equal to the group sizes of the prefix |
| DataTable.CountStepKeys | components/ui/data-table.tsx:105 | after one step the map's keys are the keys of the longer prefix |
| DataTable.CountOfKeyStep | components/ui/data-table.tsx:105 | after one step each entry is the size of its group in the longer prefix |
| DataTable.CountGroups | components/ui/data-table.tsx:102-106 | the forEach loop returns the count map of all rows |
| DataTable.SumIsGroupSizes | components/ui/data-table.tsx:102-106 | summing the counts over some keys gives the sizes of those groups |
| DataTable.CountsSumToRows | components/ui/data-table.tsx:102-106 | the counts add up to the number of rows |
| DataTable.OwnCount | components/ui/data-table.tsx:125 | every row's key is counted at least once, so the `\|\| 1` fallback never applies to a present key |
| DataTable.PositionAt | components/ui/data-table.tsx:117-123 | positionInGroup is at least 1 after every row |
| DataTable.InfoStep | components/ui/data-table.tsx:112-140 | one callback's updates to currentDispatchId, groupIndex and positionInGroup yield that row's annotation |
| DataTable.KeysOf | components/ui/data-table.tsx:114 | one key per row, the row's dispatchId or "" |
| DataTable.AnnotateRow | components/ui/data-table.tsx:112-140 | one call of the map callback produces the row's annotation and the counters after that row |
| DataTable.AnnotateRows | components/ui/data-table.tsx:96-140 | the whole pass annotates every row with its position, total, isFirst, groupIndex, isLast and background |
| DataTable.TotalIsGlobalCount | components/ui/data-table.tsx:125 | a row's total is the number of rows anywhere in the table with its dispatchId, not only those in its run |
| DataTable.PositionSteps | components/ui/data-table.tsx:117-123 | the position restarts at 1 exactly when the key changes and otherwise grows by one |
| DataTable.PositionIsRunLength | components/ui/data-table.tsx:117-123 | the position is the length of the run of equal keys ending at that row |
| DataTable.LeadingBlankRun | components/ui/data-table.tsx:97-98 | leading rows without a dispatchId match the initial "" and open no group: their groupIndex stays 0 |
| DataTable.GroupIndexSteps | components/ui/data-table.tsx:117-120 | groupIndex grows by one exactly when the key changes |
| DataTable.LastThenFirst | components/ui/data-table.tsx:129-132 | a row is last in its group iff the next row is first in its own; the final row is last iff its key is not "" |
| DataTable.BackgroundsAlternate | components/ui/data-table.tsx:125-126 | two adjacent groups with more than one row each get different, non-empty backgrounds |
| DataTable.NoBackgroundAlone | components/ui/data-table.tsx:126 | a row whose dispatchId occurs once gets no background |
| Middleware.TargetsAreOrdinary | middleware.ts:9-37 | neither redirect target is under /api/auth or /admin, and the dashboard is not the login page |
| Middleware.Route | middleware.ts:4-41 | redirects only ever go to /login or /dashboard; without a session only /api/auth paths and /login pass; an /admin page outside /api/auth passes only for role ADMIN; the redirect to /login happens exactly for a visitor without a session on a page that is neither public nor under /api/auth |
| Middleware.AuthApiPasses | middleware.ts:13-17 | every path under /api/auth passes, with or without a session |
| Middleware.LoginPageRule | middleware.ts:19-24 | /login sends a signed-in visitor to /dashboard and lets anyone else through |
| Middleware.AdminPagesNeedAdmin | middleware.ts:30-38 | a signed-in user without role ADMIN is sent from any /admin page to /dashboard |
| Middleware.SignedInPasses | middleware.ts:26-40 | a signed-in user passes on every page other than /login, /admin pages needing role ADMIN |
| Middleware.NoRedirectLoop | middleware.ts:4-41 | following a redirect with the same session never redirects again |
| AuthUtils.CurrentUser | lib/auth-utils.ts:8-14 | null exactly when there is no session or the session has no user; otherwise the session's user |
| AuthUtils.TeamScope | lib/auth-utils.ts:16-26 | no team filter for a visitor without user or for an ADMIN; otherwise the user's own teamId |
| AuthUtils.RequireAuth | lib/auth-utils.ts:33-39 | "Unauthorized" exactly when there is no user; otherwise that user |
| AuthUtils.ScopedOnlyForMembers | lib/auth-utils.ts:16-39 | a team filter is only produced for an authorized non-admin user, and it is that user's teamId |
| AuthUtils.AdminTeamIgnored | lib/auth-utils.ts:21-23 | an ADMIN gets no team filter whatever team they belong to |
| Admin.UpdateData | app/actions/admin.ts:93-101 | a text field is written iff it is non-empty; the team key is written iff present, as null for "" and null; the password iff non-empty, and then only its hash |
| Admin.BuildUpdateData | app/actions/admin.ts:93-101 | the sequence of conditional assignments builds exactly that patch |
| Admin.ApplyPatch | app/actions/admin.ts:103-106 | applying a patch never changes the user's id |
| Admin.EmptyFormChangesNothing | app/actions/admin.ts:93-106 | a form with every field empty and no team key leaves the user unchanged |
| Admin.PasswordIsHashed | app/actions/admin.ts:99-101 | after an update the stored password is the old one or the hash of the new non-empty one |
| Admin.UpdateIdempotent | app/actions/admin.ts:83-109 | applying the same form's patch twice equals applying it once |
| Admin.GetTeams | app/actions/admin.ts:9-18 | every team exactly once with its user and dispatch counts, ascending by code |
| Admin.TeamById | app/actions/admin.ts:35-36 | the lookup returns a stored team with that id, or none when no team has it |
| Admin.GetUsers | app/actions/admin.ts:53-60 | every user exactly once joined with its team, ascending by username |
| Admin.UsersListedWithTheirTeam | app/actions/admin.ts:53-60 | a user whose teamId names a stored team is listed with that team |
| Admin.Unassign | app/actions/admin.ts:46-47 | deleting a team leaves every other user as is and nulls teamId exactly for its members |
| Admin.Accounts.CreateTeam | app/actions/admin.ts:20-29 | fails iff the storage faults or the upper-cased code is taken, and then teams, users and the id counter are unchanged; otherwise appends a team with a fresh id, the name and the upper-cased code (no ASCII lower-case letter left), users untouched, integrity kept |
| Admin.Accounts.UpdateTeam | app/actions/admin.ts:31-44 | fails iff the storage faults, the id is unknown or another team has the upper-cased code, and then nothing changes; otherwise only that team's name and code change |
| Admin.Accounts.DeleteTeam | app/actions/admin.ts:46-49 | fails iff the storage faults or the id is unknown, and then nothing changes; otherwise the team is removed and its members' teamId set to null |
| Admin.Accounts.CreateUser | app/actions/admin.ts:62-81 | fails iff the storage faults, the username is taken or the team does not exist, and then nothing changes; otherwise appends a user with a fresh id, the hashed password and `teamId \|\| null` |
| Admin.Accounts.UpdateUser | app/actions/admin.ts:83-109 | fails iff the storage faults, the id is unknown, the new username is taken or the new team does not exist, and then nothing changes; otherwise only that user changes, by the patch |
| Admin.Accounts.DeleteUser | app/actions/admin.ts:111-114 | fails iff the storage faults or the id is unknown, and then nothing changes; otherwise that user alone is removed |
| Admin.RenameTeamKeepsOk | app/actions/admin.ts:35-41 | replacing a team by one with the same id and an unused code keeps the tables' integrity |
| Admin.DeleteTeamKeepsOk | app/actions/admin.ts:46-47 | removing a team and unassigning its members keeps the tables' integrity |
| Admin.UpdateUserKeepsOk | app/actions/admin.ts:103-106 | replacing a user by one with the same id, a free username and an existing team keeps integrity |
| Admin.PatchedUserOk | app/actions/admin.ts:93-106 | a patch whose username is free and whose team exists yields a user that fits the tables |
| Admin.DeleteUserKeepsOk | app/actions/admin.ts:111-112 | removing a user keeps the tables' integrity |
| AssignTeams.CodeMap | scripts/assign-teams.ts:33-36 | the map's keys are exactly the teams' codes, and a code maps to the id of the last team carrying it |
| AssignTeams.TeamCodeToId | scripts/assign-teams.ts:32-36 | the first loop builds exactly that map |
| AssignTeams.CodeMapOfUniqueCodes | scripts/assign-teams.ts:33-36 | with unique codes every team's code maps to its own id |
| AssignTeams.FirstMatch | scripts/assign-teams.ts:51-56 | the index found is that of the first suffix rule contained in the number, or the table length when none is |
| AssignTeams.FirstMatchUnique | scripts/assign-teams.ts:51-56 | any index with no earlier match and a match there (or the end) is the one found |
| AssignTeams.FindTeamCode | scripts/assign-teams.ts:47-56 | the inner loop with its break yields the team code of the first matching table entry |
| AssignTeams.TableOrderWins | scripts/assign-teams.ts:6-23 | the table order, not the position in the number, decides: "12/ĐTN-KT/TTr-ĐTB" goes to ĐTB |
| AssignTeams.Assign | scripts/assign-teams.ts:58-77 | handling a dispatch changes nothing but its teamId |
| AssignTeams.AssignAll | scripts/assign-teams.ts:46-78 | the loop rewrites each dispatch in place by its verdict and leaves the units alone |
| AssignTeams.AssignStep | scripts/assign-teams.ts:61-64 | with the ids read distinct, one update extends the processed prefix by one and leaves every other row alone |
| AssignTeams.AssignedBeforeValid | scripts/assign-teams.ts:61-64 | updates that change only teams keep the store well formed, whatever prefix has been processed |
| AssignTeams.AssignedBeforeAll | scripts/assign-teams.ts:46-78 | once every dispatch is processed the store is the one `AssignAll` describes |
| AssignTeams.CountStep | scripts/assign-teams.ts:66-77 | `updated` grows by one exactly for a reassigned dispatch |
| AssignTeams.AssignOne | scripts/assign-teams.ts:47-77 | one iteration writes the new teamId iff the verdict is a reassignment and the write does not throw; a throwing write stores nothing and is reported |
| AssignTeams.Visit | scripts/assign-teams.ts:46-78 | one iteration either moves the pass one dispatch on, keeping the processed prefix and the counts exact, or stops on the dispatch whose write throws |
| AssignTeams.ReassignDispatches | scripts/assign-teams.ts:46-78 | the loop stops exactly when a write throws; the dispatches before the stop are assigned, the rest untouched, and `updated` counts the reassignments among them |
| AssignTeams.AssignAllTeams | scripts/assign-teams.ts:28-86 | the script leaves the store well formed; it reports an abort iff a write throws, and then the dispatches before that one stay reassigned and the rest keep their team; otherwise the store equals every dispatch assigned, `updated` counts reassignments and updated plus skipped is the number of dispatches |
| AssignTeams.UnmatchedKeepsTeam | scripts/assign-teams.ts:70-77 | a number with no team suffix keeps its dispatch's team |
| AssignTeams.ReassignedToNamedTeam | scripts/assign-teams.ts:58-64 | a reassigned dispatch goes to the stored team whose code its suffix names |
| AssignTeams.AssignSettles | scripts/assign-teams.ts:58-69 | an assigned dispatch is never reassigned again |
| AssignTeams.SecondRunUpdatesNothing | scripts/assign-teams.ts:28-83 | running the script twice equals running it once, and the second run updates nothing |
| Model.FindDispatch | app/actions/update-dispatch.ts:44-45 | `where: { id }`: a dispatch is found only if it is stored under that id, and nothing is found exactly when no stored dispatch has it |
| Model.FindDispatchIff | app/actions/update-dispatch.ts:44-45 | in a well-formed store, looking up a dispatch's id finds that dispatch iff it is stored |
| Model.Join | app/actions/dashboard.ts:28-30 | `include: { dispatch: true }`: each listed unit is paired with its own stored dispatch, and no unit is invented |
| Model.JoinKeepsAll | app/actions/dashboard.ts:28-30 | when every unit's dispatch is stored, the join keeps every unit in order |
| Store.DocumentTypeOr | app/actions/export-dispatch.ts:47 | `documentType \|\| "CV"`: the submitted kind, or CV when none is sent |
| Store.FlagOr | app/actions/export-dispatch.ts:48 | `isCBM \|\| false`: true exactly when the form sends true |
| Store.UrlOr | app/actions/import-dispatch.ts:60 | `fileUrl \|\| ""`: a non-empty url is kept, anything else becomes "" |
| Store.NewUnits | app/actions/export-dispatch.ts:51-58 | one unit per submitted row, copying its fields, tied to the new dispatch, with fresh consecutive ids and default flags |
| Store.RemoveUnitsOf | app/actions/update-dispatch.ts:58-60 | `deleteMany({ where: { dispatchId } })`: exactly the units of other dispatches remain, dispatches untouched |
| Store.RemoveUnitsOfEffect | app/actions/update-dispatch.ts:58-60 | after the delete the dispatch has no units and every other dispatch keeps its own |
| Store.Store.CreateWithUnits | app/actions/export-dispatch.ts:41-60 | a nested create stores the dispatch under a fresh id with its new units and keeps the store well formed |
| Text.Upper | app/actions/admin.ts:24 | `toUpperCase` on ASCII: same length, each ASCII lower-case letter raised and every other character kept |
| Text.UpperIsUpper | app/actions/admin.ts:24 | an upper-cased code holds no ASCII lower-case letter, and upper-casing twice equals once |
| Text.IncludesContainsFolded | app/actions/import-dispatch.ts:25-29 | an exact occurrence also satisfies the case-blind database `contains` filter |
| Text.ContainsFoldedLength | app/actions/import-dispatch.ts:25-29 | a number that matches the filter is at least as long as the query |
| Text.LexLeTotal | app/actions/admin.ts:16 | any two strings are comparable in the ascending order |
| Text.LexLeTrans | app/actions/admin.ts:16 | the ascending order is transitive |
| Text.SortByText | app/actions/admin.ts:16 | the ascending sort returns a sorted permutation of its input |
| Store.UpdateWhere | app/actions/update-dispatch.ts:77-92 | `updateMany({ where, data })`: every dispatch matching the filter is rewritten in place, the rest and all units untouched |
| Store.UpdateUnitsWhere | app/actions/get-dispatches.ts:175-178 | a unit update by filter rewrites exactly the matching units in place and leaves the dispatches alone |
| ReportByIds.EntriesStep | app/actions/get-report-by-ids.ts:38-44 | after one step every entry of the map is its dispatch's group of the longer prefix |

## Left out

- Environment values are parameters: the clock (`now`), parsing of date strings (`parse`), bcrypt (`hash`) and the session returned by the authentication library. Logging, `revalidatePath` and console output are not modelled.
- Dates are integers. The day key (`format(d, "dd/MM/yyyy")`) and the local-time day window (`setHours`) are given functions, so time zones and calendar arithmetic are not modelled.
- Ids are natural numbers drawn from `nextId`, not cuid strings. The truthiness test on a team's id in scripts/assign-teams.ts:58 cannot fail on them.
- The Prisma schema is not part of this model. The referential actions it would declare are written out as explicit rules: units are deleted with their dispatch, and a `linkedCvId` or `sourceDispatchId` naming a deleted dispatch becomes null. Team codes and usernames are assumed unique.
- The database's `contains` filter is modelled as a substring match that ignores the case of ASCII letters. LIKE wildcards (`%`, `_`) in the query and the collation of non-ASCII letters are not modelled.
- Text.Upper: raises only ASCII letters, while `toUpperCase` also raises non-ASCII ones. A code typed as "đtb" is stored here as "đTB", and Admin.CodeInUse then does not see it collide with "ĐTB"; the action would store "ĐTB" and fail. Codes typed in upper case, such as "ĐTB", are unaffected.
- String lengths count characters, not UTF-16 code units. A search query of one character outside the Basic Multilingual Plane is two units long in JavaScript and passes `query.length < 2` (app/actions/import-dispatch.ts:22); ImportDispatch.SearchDispatches counts it as one and returns nothing.
- Text ordering (`orderBy` on a string) is lexicographic on characters. Ties in `orderBy` keep storage order; the database does not promise this, and a stable sort stands in for it.
- The writes of updateDispatch are not in a transaction. They are modelled sequentially, with a fault parameter naming the write that throws; concurrent requests and interleavings are not modelled.
- deleteTeam in app/actions/admin.ts: the model nulls the team's users, but not the `teamId` of dispatches, because dispatches live in `Store.Store` rather than in `Admin.Accounts`.
- Admin.ApplyPatch: its own contract only keeps the id. What each column becomes is stated by Admin.UpdateData, Admin.EmptyFormChangesNothing, Admin.PasswordIsHashed and Admin.UpdateIdempotent.
- The per-key counts of get-dispatches.ts (`map[cap] || 0`) and of the data table (`groupCounts[dispatchId] || 0`) live in plain JavaScript objects. A key equal to an inherited property name, such as "constructor" or "toString", would start from that property instead of 0 there. Capacity.CreateCapacityMap and DataTable.CountGroups count such keys like any other key.
- ExportDispatch.ExportForm, UpdateDispatch.UpdateForm: `sourceDispatchId` is an optional id, so it cannot hold the empty string. Both actions pass the field to the store unchanged (app/actions/export-dispatch.ts:49, app/actions/update-dispatch.ts:30,53), and an empty string names no dispatch. The model gives any id that names no stored dispatch the same outcome: the insert or update fails. An empty string is therefore represented by such an id, and its text is not modelled.
- The matcher configuration of middleware.ts (line 44) is not modelled. The guard is modelled for every path it is called on.
- The rest of app/report/page.tsx and components/ui/data-table.tsx is rendering and is not modelled. From those two files the model covers `groupByDate`, the empty-report condition and the row-annotation loop.
- File uploads, the NextAuth configuration, the persisted client-side unit store and the one-off maintenance scripts other than scripts/assign-teams.ts are not part of this model.
- Behaviours kept as written:
  - the last row of the data table counts as last in its group only when its dispatch id is not "" (`DataTable.LastThenFirst`);
  - any path that merely starts with "/admin", such as "/administrator", is guarded as an admin page.
