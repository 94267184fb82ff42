# Contract control dashboard — verified model of its core

This project models, in Dafny, the business logic of a dashboard that a construction
company uses to control its contracts. The modelled pieces are:

- **In-memory store** (`DataService`). It holds equipment, contract indices (billable
  contract lines with a current unit price), equipment costs and daily reports (RDOs).
  - `getIndices` and `getRDOs` filter by project.
  - `saveRDO` only appends.
  - `getDashboardMetrics` folds reports and costs into rental and construction revenue
    and total costs. It also builds a per-equipment revenue, cost and margin table,
    sorted by revenue.
- **Daily-report editor** (`Rdo`). Choosing a contract index copies the index's current
  price into the line (the price *freeze*). Every quantity or index change recomputes
  `totalValue = quantity * frozenPrice`. Saving is guarded and stores the report with
  the sum of its lines.
- **Monthly planning screen** (`Planning`). It covers:
  - per-index planned quantities and the rental/construction totals;
  - the fleet roster: demobilise, edit a field, toggle a selection, commit a
    mobilisation;
  - the fleet revenue, cost and margin;
  - the plan record that a save builds.
- **Measurement bulletin import** (`Measurement`). The loop over spreadsheet rows
  skips the header, short rows, empty codes and "Total" lines. It values each item
  as quantity × unit price. The guarded save totals the bulletin.

In the store and the two editing screens, money is an integer number of centavos and
quantities are integers; measurement bulletin figures are unitless integers. Identifiers and
dates are parameters. The spreadsheet's cell-to-number conversion (`parseFloat`) is a
parameter `parse: string -> int`.

Stateful parts are classes:
- `DataStore`: the module-level arrays;
- `RdoEditor`, `PlanningSession` and `MeasurementSession`: the screens' React state.

Their methods are proved against pure functions. Those functions carry the
properties, stated as ensures clauses and lemmas.

Where the code and its on-screen text disagree, this model follows the code. The
report screen says unit prices are frozen "at save time"
(components/RDOModule.tsx:263). The code, however, freezes the price when the index
is selected (components/RDOModule.tsx:58-63), and saving copies the lines verbatim.
`FrozenPriceKept` and `RevisionScenario` state that behaviour.

The seed report stores a daily total of 12500.00. Its lines add up to 11600.00 (the
construction line carries an older price). `SeedRevenueIsStored` proves both figures,
so the dashboard's total revenue is not the sum of the rental and construction
revenue.

## Model

| member | source | states |
|---|---|---|
| DataService.DataStore.GetIndices | services/dataService.ts:60-63 | exactly the store's indices of the project (membership both ways), in store order: a subsequence of the store holding each of the project's indices as often as stored |
| DataService.DataStore.GetRDOs | services/dataService.ts:82-85 | exactly the stored reports of the project, both ways, in store order: a subsequence of the store holding each of the project's reports as often as stored |
| Seqs.Filter | services/dataService.ts:62 | a filter keeps exactly the elements satisfying the predicate and never grows |
| Seqs.FilterAppend | services/dataService.ts:84 | filtering distributes over concatenation, so the store order is kept |
| Seqs.FilterAll | services/dataService.ts:84 | a filter that keeps every element returns the sequence unchanged |
| Seqs.FilterCount | services/dataService.ts:84 | a kept value occurs as often as in the input, any other value not at all |
| Seqs.FilterSubsequence | services/dataService.ts:84 | the kept elements stand in the input at increasing positions |
| Seqs.SumAppend | services/dataService.ts:99-100 | a sum over a concatenation is the sum of the two parts |
| Seqs.SumPrefix | services/dataService.ts:122-125 | extending a prefix by one element adds that element's value |
| DataService.DataStore.SaveRDO | services/dataService.ts:76-80 | appends the report unchanged at the end; earlier reports are untouched; no upsert |
| DataService.DataStore.GetDashboardMetrics | services/dataService.ts:88-142 | total revenue is the sum of stored daily totals; rental/construction revenue are the two buckets and add up to the revenue of resolving items; total costs sum every cost; the health table has one row per equipment, is a permutation of `HealthRows` and is sorted by non-increasing revenue; the store is not modified |
| DataService.FoldReports | services/dataService.ts:99-117 | the report loop yields the stored-total sum, both revenue buckets and the per-equipment revenue map |
| DataService.FoldCosts | services/dataService.ts:120-125 | the cost loop yields the per-equipment cost map and the sum of all costs |
| DataService.MergeHealth | services/dataService.ts:128-132 | the merged rows are the health rows of the folded maps |
| DataService.HealthRows | services/dataService.ts:128-132 | one row per equipment, labelled with its name; absent revenue or cost is 0; margin = revenue − cost |
| DataService.Insert | services/dataService.ts:133 | inserting a row adds exactly that row (multiset) |
| DataService.ConsSorted | services/dataService.ts:133 | a row whose revenue bounds a sorted list may head it |
| DataService.InsertBounded | services/dataService.ts:133 | inserting keeps every revenue within a bound respected by the list and the new row |
| DataService.InsertSorted | services/dataService.ts:133 | inserting into a revenue-descending list keeps it descending |
| DataService.SortByRevenue | services/dataService.ts:133 | the sort is a permutation and orders rows by non-increasing revenue |
| DataService.ItemsRevenueSplit | services/dataService.ts:102-110 | within one report, rental plus construction revenue is the total of the lines whose index resolves |
| DataService.RevenueSplit | services/dataService.ts:102-110 | over all reports, rental plus construction revenue equals the revenue of resolving lines |
| DataService.ItemsRevenueAppend | services/dataService.ts:101-110 | bucket revenue is additive over the lines of a report |
| DataService.DanglingItemIgnored | services/dataService.ts:103-104 | a line whose index id is unknown adds nothing to either bucket, wherever it stands |
| DataService.EquipmentCostAppendOne | services/dataService.ts:122-123 | one more cost adds its value to its own equipment's total only |
| DataService.DanglingCost | services/dataService.ts:122-133 | a cost for unknown equipment changes no health row but still adds to total costs |
| DataService.SeedLookups | services/dataService.ts:19-44 | each seed line's index id resolves to the seed index of that id |
| DataService.SeedItemBuckets | services/dataService.ts:19-45 | each seed line lands in the bucket of its index type |
| DataService.ItemsRevenueOfThree | services/dataService.ts:101-110 | bucket revenue of a three-line report is the sum of its lines' bucket values |
| DataService.SeedItemsRevenue | services/dataService.ts:40-45 | the seed report's lines give 3200.00 rental and 8400.00 construction |
| DataService.SeedRevenueIsStored | services/dataService.ts:34-47 | seed total revenue is the stored 12500.00 while the resolved lines sum to 11600.00 |
| DataService.DataStore.constructor | services/dataService.ts:13-47 | the store starts with the seed records |
| Types.FindIndex | components/RDOModule.tsx:59 | the found index is the first in the list with the id; none is found exactly when no index has the id |
| Rdo.AppendBlank | components/RDOModule.tsx:37-47 | exactly one new line with empty index, zero quantity, price and total; earlier lines unchanged; line consistency kept |
| Rdo.AppendBlankKeepsTotal | components/RDOModule.tsx:37-47 | adding a blank line leaves the grand total unchanged |
| Rdo.ApplyEdit | components/RDOModule.tsx:54-68 | choosing a resolving index copies its current price; an unknown index keeps the old price; quantity and equipment edits never change the price; after an index or quantity edit the total is quantity × price; an equipment edit keeps quantity and total |
| Rdo.UpdateItems | components/RDOModule.tsx:50-72 | same length and ids; lines with another id are unchanged; matching lines get the edit; consistency of every line is preserved |
| Rdo.RemoveItems | components/RDOModule.tsx:75-77 | exactly the lines with another id remain, in their order and as often as before; consistency is preserved |
| Rdo.GrandTotalOfConsistent | components/RDOModule.tsx:102 | when every line is consistent, the sum of stored totals equals the sum of quantity × frozen price |
| Rdo.Replay | components/RDOModule.tsx:50-72 | a sequence of edits keeps the number of lines |
| Rdo.FrozenPriceKept | components/RDOModule.tsx:55-63 | a line's frozen price survives any edits that do not choose an index for that line, whatever the index prices |
| Rdo.ReplayConsistent | components/RDOModule.tsx:66-68 | the table's edits preserve `totalValue = quantity * frozenPrice` on every line |
| Rdo.RevisionScenario | components/RDOModule.tsx:55-63 | an index revised from 42.00 to 45.00 leaves an existing line at 42.00; a line created afterwards freezes at 45.00 |
| Rdo.RdoEditor.constructor | components/RDOModule.tsx:9-14 | no project, today's date, no indices, no lines |
| Rdo.RdoEditor.SelectProject | components/RDOModule.tsx:26-34 | a non-empty project reloads that project's indices; the lines are untouched |
| Rdo.RdoEditor.SetDate | components/RDOModule.tsx:138 | the report date is set |
| Rdo.RdoEditor.AddItem | components/RDOModule.tsx:37-47 | the line list becomes `AppendBlank` of the old list |
| Rdo.RdoEditor.UpdateItem | components/RDOModule.tsx:50-72 | the line list becomes `UpdateItems` of the old list with the current indices |
| Rdo.RdoEditor.RemoveItem | components/RDOModule.tsx:75-77 | the line list becomes `RemoveItems` of the old list |
| Rdo.RdoEditor.GrandTotal | components/RDOModule.tsx:102 | the on-screen total is the sum of quantity × frozen price |
| Rdo.RdoEditor.HandleSave | components/RDOModule.tsx:80-100 | no project or no lines: nothing changes; otherwise one APPROVED report with the lines verbatim and the on-screen grand total is appended, and the lines are cleared |
| Planning.FindPlanItem | components/PlanningModule.tsx:52 | the found plan line is the first with the index id; none exactly when no line has it |
| Planning.InitialQuantities | components/PlanningModule.tsx:49-54 | one entry per project index, holding the saved planned quantity or 0 |
| Planning.ContractValueSplit | components/PlanningModule.tsx:116-133 | every index falls in exactly one bucket, so rental plus construction equals the value of all indices |
| Planning.PlanItemsToSave | components/PlanningModule.tsx:148-152 | never more lines than indices, and every kept line has a positive quantity |
| Planning.PlanItemsToSaveMembers | components/PlanningModule.tsx:148-152 | every saved line is an index's line priced at its current price, and every index with a positive quantity has its line |
| Planning.PlanItemsInIndexOrder | components/PlanningModule.tsx:148-152 | the plan lines follow index order |
| Planning.PlanTotalMatchesContract | components/PlanningModule.tsx:148-161 | with no negative quantity, the saved plan total equals the contract total shown on screen |
| Planning.NegativeQuantityDropped | components/PlanningModule.tsx:148-152 | a negative quantity counts on screen but is dropped from the saved plan |
| Planning.Demobilize | components/PlanningModule.tsx:76-78 | exactly the entries for other equipment remain, in roster order and as often as before |
| Planning.EditFleetEntry | components/PlanningModule.tsx:83 | only the named field takes the new value; the others are unchanged |
| Planning.UpdateFleet | components/PlanningModule.tsx:80-87 | same length and equipment; matching entries get the edit; the others are unchanged |
| Planning.Toggle | components/PlanningModule.tsx:89-93 | a present id is removed and the other ids are kept in selection order; an absent id is appended |
| Planning.ToggleTwice | components/PlanningModule.tsx:89-93 | toggling twice restores membership; from absent it restores the list exactly |
| Planning.MobilizationEntries | components/PlanningModule.tsx:96-102 | one MOBILIZACAO entry with zero targets and cost per selected id, in selection order |
| Planning.AvailableFleet | components/PlanningModule.tsx:173 | exactly the equipment with no entry in the fleet plan, in store order and as often as stored |
| Planning.CommittedNotAvailable | components/PlanningModule.tsx:173 | an id committed to the fleet is no longer offered |
| Planning.PlanningSession.constructor | components/PlanningModule.tsx:7-20 | project and month set, equipment list loaded, nothing planned |
| Planning.PlanningSession.LoadPlanningData | components/PlanningModule.tsx:40-65 | the project's indices; their saved quantities or 0; the saved fleet or none |
| Planning.PlanningSession.HandleQuantityChange | components/PlanningModule.tsx:67-72 | only that index's quantity changes |
| Planning.PlanningSession.DemobilizeEquipment | components/PlanningModule.tsx:76-78 | the fleet becomes `Demobilize` of the old fleet |
| Planning.PlanningSession.UpdateFleetItem | components/PlanningModule.tsx:80-87 | the fleet becomes `UpdateFleet` of the old fleet |
| Planning.PlanningSession.ToggleSelectionForMobilization | components/PlanningModule.tsx:89-93 | the selection becomes `Toggle` of the old selection |
| Planning.PlanningSession.CommitMobilization | components/PlanningModule.tsx:95-106 | the new entries are appended after the old fleet and the selection is cleared |
| Planning.PlanningSession.CalculateTotals | components/PlanningModule.tsx:111-142 | the two buckets, a grand total equal to the value of all indices, the fleet sums, revenue = productive + unproductive, and margin = revenue − cost |
| Planning.PlanningSession.HandleSave | components/PlanningModule.tsx:144-162 | the plan holds the kept lines and the fleet verbatim; its total is the sum of the kept lines; with no negative quantity that equals the contract total |
| Planning.PlanningSession.Available | components/PlanningModule.tsx:173 | every offered equipment exists and has no fleet entry |
| Measurement.Digits | components/MeasurementModule.tsx:88 | a natural number prints as decimal digits that denote the number, without a leading zero; 0 prints as "0" |
| Measurement.Numeral | components/MeasurementModule.tsx:88 | an integer prints as a minus sign exactly when it is negative, then decimal digits denoting its magnitude, without a leading zero |
| Measurement.CellString | components/MeasurementModule.tsx:88 | blanks, zero and empty text read as "" and nothing else does; text reads as itself, other numbers as their numeral |
| Measurement.FirstComma | components/MeasurementModule.tsx:91 | the position of the first comma, or the length when there is none |
| Measurement.ReplaceFirstComma | components/MeasurementModule.tsx:91 | the first comma becomes a point and every other character is kept; text without a comma is unchanged |
| Measurement.CellNumber | components/MeasurementModule.tsx:91 | numbers are taken as they are; a blank parses "undefined", empty text parses "0", text without a comma parses as itself, and text with a decimal comma parses with its first comma turned into a point |
| Measurement.TrimStart | components/MeasurementModule.tsx:88 | exactly the leading white space is dropped: the result is a suffix, the dropped part is all white space, and it does not start with white space |
| Measurement.TrimEnd | components/MeasurementModule.tsx:88 | exactly the trailing white space is dropped: the result is a prefix, the dropped part is all white space, and it does not end with white space |
| Measurement.Trim | components/MeasurementModule.tsx:88 | the code is the slice of the cell text between its leading and trailing white space, and neither starts nor ends with white space |
| Measurement.RowItem | components/MeasurementModule.tsx:85-106 | missing or short rows, empty codes and "Total" lines give nothing; every other row gives an item with the trimmed code, the unit price of column G and the quantity of column J; an item has value = quantity × unit price |
| Measurement.RowItemAccepted | components/MeasurementModule.tsx:88-104 | an accepted row gives exactly the item read from columns A, D, F, G and J, valued at quantity × unit price |
| Measurement.RowItemColumns | components/MeasurementModule.tsx:88-104 | an item's fields are read from columns A (trimmed code), D, F, G (unit price) and J (quantity) |
| Measurement.Collect | components/MeasurementModule.tsx:84-107 | a loop that pushes or skips per element never yields more values than elements |
| Measurement.CollectFrom | components/MeasurementModule.tsx:84-107 | every pushed value is the result of one of the elements |
| Measurement.CollectAppend | components/MeasurementModule.tsx:84-107 | the values of consecutive runs are concatenated, in order |
| Measurement.CollectAll | components/MeasurementModule.tsx:84-107 | when every element yields a value, all are kept, in order |
| Measurement.ItemsFrom | components/MeasurementModule.tsx:84-107 | never more items than rows; every item is well formed |
| Measurement.ItemsFromRows | components/MeasurementModule.tsx:84-107 | every item is the item of one of the rows |
| Measurement.ItemsFromStep | components/MeasurementModule.tsx:84-107 | one more row adds that row's item, if any, at the end |
| Measurement.ReadRow | components/MeasurementModule.tsx:85-106 | one pass of the loop body yields the row's item, if any, and every item is well formed |
| Measurement.ParseRows | components/MeasurementModule.tsx:78-107 | the loop yields the bulletin items; at most rows − 1 of them; each comes from a row other than the header |
| Measurement.BulletinItemsFromDataRows | components/MeasurementModule.tsx:84 | row 0 (the header) never produces an item |
| Measurement.ItemsFromAppend | components/MeasurementModule.tsx:84-107 | the items of consecutive row runs are concatenated, in row order |
| Measurement.SkippedRowIgnored | components/MeasurementModule.tsx:86-89 | a skipped row contributes nothing wherever it stands |
| Measurement.EveryAcceptedRowKept | components/MeasurementModule.tsx:91-105 | when every row is a data row, each yields exactly one item, in row order |
| Measurement.SumOfProducts | components/MeasurementModule.tsx:121 | for well-formed items the sum of measured values is the sum of quantity × unit price |
| Measurement.BulletinTotalIsProducts | components/MeasurementModule.tsx:121 | the bulletin total of parsed rows is the sum of quantity × unit price |
| Measurement.MeasurementSession.constructor | components/MeasurementModule.tsx:9-15 | construction type, nothing parsed, no file name |
| Measurement.MeasurementSession.HandleFile | components/MeasurementModule.tsx:68-109 | the file name is kept and the preview becomes the bulletin items of the rows |
| Measurement.MeasurementSession.TotalParsedValue | components/MeasurementModule.tsx:141 | the preview total is the sum of quantity × unit price |
| Measurement.MeasurementSession.HandleSave | components/MeasurementModule.tsx:111-132 | no project or no items: nothing changes; otherwise the bulletin holds the items verbatim and the preview total, and the preview is cleared |

## Left out

- Floating point: amounts are integer centavos and quantities integers. Rounding,
  `NaN` from `parseFloat` and `toLocaleString` formatting are not modelled.
- Random ids (`Math.random`) and `new Date()` defaults are parameters.
- `delay`, Promises, `console.log`, the loading and saving flags, and the `setTimeout`
  success messages are not modelled.
- `getPlan`, `savePlan`, `saveBulletin`, `getBulletins` and `deleteBulletin` are
  called by the screens but are not defined in services/dataService.ts. They are not
  part of this model. The planning and measurement `HandleSave` methods return the
  record that would be handed to the store. The plan's carry-forward from the
  previous month is likewise not modelled.
- Measurement cells carry no unit: one `parse` reads both the unit price (column G)
  and the quantity (column J), and numeric cells are taken as they are. So the
  centavos convention of the store does not extend to bulletin figures, which are
  whatever numbers the sheet holds (the source reads both with the same `parseFloat`).
- Reading the workbook (`file.arrayBuffer`, `read`, `sheet_to_json`) is not modelled.
  The rows arrive as cells (number, text or blank). Boolean and date cells are not
  modelled. `parseFloat` is the `parse` parameter.
- `Record<string, number>` keys are plain strings. JavaScript prototype keys such as
  `"constructor"` are not modelled.
- `updateItem`'s `field` argument is limited to the three fields the table edits
  (index, equipment, quantity). Writing `frozenPrice` or `totalValue` directly is not
  modelled.
- `updateFleetItem`'s `field` is limited to status, the two targets and the estimated
  cost. The screen does not edit `equipmentId`.
- Rdo.Replay: the replayed history covers line edits only. Adding and removing lines
  are proved separately, by `AppendBlank` and `RemoveItems`.
- DataService.SortByRevenue: sortedness and permutation are proved. Stability (the
  order of equal revenues that `Array.prototype.sort` keeps) is not stated.
- Planning.PlanningSession.Available: states one direction (nothing offered is
  already in the fleet). The other direction is `AvailableFleet`'s ensures.
- Project and month selection, the projects list, history loading, and the modal
  visibility flags are view state and are not modelled.
- The dashboard's screens, the analytics, index, project, equipment, cost and asset
  screens, and navigation are rendering or thin form wrappers. They are not part of
  this model.
