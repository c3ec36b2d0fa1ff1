# Basket dashboard — a verified model of its core

This project models the core of *cestajob*, a small React dashboard for a
charity food-basket operation. The dashboard keeps:

- an inventory of items (quantity, minimum quantity, unit, unit price);
- basket models (which items one basket needs, and how many of each);
- a ledger of purchase transactions;
- a list of user accounts.

It computes from them:

- how many complete baskets the stock allows, and which items limit that;
- the stock overview panel: units, low-stock share, value per category, the five most valuable items;
- money spent overall and today, and a month-by-month spending chart;
- the stock left after the sales in the ledger.

The model also covers the editing pages (items, basket models, transactions,
users), the navigation bar's highlighting and phone menu, and the sign-in
context with its single fixed account.

Money is integer cents (R$ 5,50 is `550`), so the floating-point sums of the
source become exact integer sums. Every page's state is a Dafny `class` whose
methods change its fields as the React state setters do. Every method is tied
by its `ensures` to a pure function of the old state, and the properties are
proved as lemmas about those functions. Identifiers from `Date.now()`,
today's date, the answer to `confirm(...)`, the current URL path, whether the
screen is a phone's, and what browser storage yields are all parameters.

One module per source file:

- `BasketCalculator`, `DecreaseStockBySales`, `StockOverview`, `FinancialSummary`, `FinancialContext`;
- `BasketModelsList`, `ItemsList`, `UserManagement`, `Navbar`, `AuthContext`.

Shared modules:

- `Common`: `Option`, the left-to-right sum of `reduce`, `filter`, `findIndex` (on which `find` is built), `includes`;
- `Types`: the entities and `items.find`;
- `StableSort`: `Array.prototype.sort` with a subtracting comparator, as a reference function and an in-place array method;
- `DummyData`: the fixture stock and basket models.

Where a stated requirement of the dashboard and its code disagree, the model
follows the code:

- **Category breakdown.** The value-by-category breakdown is described as a partition whose buckets add up to the total value. The code's three filters are not a partition. An item named "Sabonete" falls in no bucket, because "Outros" excludes it and no other bucket takes it in (`StockOverview.SoapIsDropped`). A name holding both a food and a cleaning keyword is counted twice (`StockOverview.OverlapCountsTwice`). The sum equals the total only under the two conditions of `StockOverview.CategoriesCoverValue`.
- **Zero need.** A basket line with a need of 0 is described as "no constraint". The code divides by it. The model therefore requires positive needs, which the basket model editor guarantees (`BasketModelsList.SavedModelWellFormed`).

## Model

| member | source | states |
|---|---|---|
| Common.FirstIndex | src/components/Baskets/BasketModelsList.tsx:32 | `findIndex`: none exactly when no element passes; otherwise a position whose element passes and before which none does |
| Types.FindItem | src/components/Dashboard/BasketCalculator.tsx:19 | `items.find` by id: none exactly when no item has the id; otherwise an item of the stock carrying the id |
| Types.FindItemFirst | src/components/Dashboard/BasketCalculator.tsx:19 | the item found is an element of the stock at some index (the first carrying the id) |
| Types.FindItemAt | src/components/Dashboard/BasketCalculator.tsx:35 | an item whose id occurs at no earlier index is exactly what the lookup returns |
| Types.WithId | src/contexts/FinancialContext.tsx:23-26 | `{ ...transaction, id }` carries the given id and exactly the given fields |
| BasketCalculator.MinCapacity | src/components/Dashboard/BasketCalculator.tsx:18-26 | `Math.min` of the per-line floors is at most every line's capacity and equals one of them |
| BasketCalculator.PossibleBaskets | src/components/Dashboard/BasketCalculator.tsx:14-27 | 0 when no model is selected; otherwise the minimum over lines of floor(stock / need), an unknown item counting 0 |
| BasketCalculator.LineCapacity | src/components/Dashboard/BasketCalculator.tsx:18-23 | defines one line's capacity: floor(stock / need) for a found item, 0 for an unknown one; `PossibleBasketsNonNegative` and `RaisingNeedNeverHelps` state its behaviour |
| BasketCalculator.FindModel | src/components/Dashboard/BasketCalculator.tsx:11 | `find` by id: none exactly when no model has the id; otherwise the model at the first index that carries it |
| BasketCalculator.LimitingItems | src/components/Dashboard/BasketCalculator.tsx:47 | exactly min(3, number of candidates) items: the first three items pushed by the limiting test, in line order |
| BasketCalculator.FindLimitingItems | src/components/Dashboard/BasketCalculator.tsx:31-48 | the `forEach` loop that pushes each resolved item with capacity at most 1.1 × the basket count, then keeps the first three, returns `LimitingItems` |
| BasketCalculator.IsLimiting | src/components/Dashboard/BasketCalculator.tsx:35-41 | defines the 10% test on a resolved line; `CandidatesSound`, `CandidatesComplete` and `BottleneckListed` state what it selects |
| BasketCalculator.LimitingCandidates | src/components/Dashboard/BasketCalculator.tsx:32-44 | defines the pushed items in line order; `CandidatesSound` and `CandidatesComplete` characterise them both ways |
| BasketCalculator.Calculate | src/components/Dashboard/BasketCalculator.tsx:9-29 | no selected model gives 0 baskets and no limiting items; a selected model gives its basket count and its limiting items |
| BasketCalculator.PossibleBasketsNonNegative | src/components/Dashboard/BasketCalculator.tsx:14-27 | over a non-negative stock the basket count is never negative |
| BasketCalculator.UnresolvedLineBlocks | src/components/Dashboard/BasketCalculator.tsx:20 | a line whose item is missing from the stock makes the basket count 0 |
| BasketCalculator.MinCapacityMonotone | src/components/Dashboard/BasketCalculator.tsx:26 | raising every line's capacity never lowers the minimum |
| BasketCalculator.RaisingNeedNeverHelps | src/components/Dashboard/BasketCalculator.tsx:22 | raising one line's need never increases the basket count |
| BasketCalculator.RaisingStockNeverHurts | src/components/Dashboard/BasketCalculator.tsx:19-22 | raising one item's stock never decreases the basket count |
| BasketCalculator.CandidatesSound | src/components/Dashboard/BasketCalculator.tsx:34-44 | every pushed item belongs to a line whose capacity passes the 10% test |
| BasketCalculator.LimitingItemsSound | src/components/Dashboard/BasketCalculator.tsx:34-47 | every listed limiting item is the resolved item of some line of the model |
| BasketCalculator.CandidatesComplete | src/components/Dashboard/BasketCalculator.tsx:34-44 | every line that passes the 10% test has its item pushed |
| BasketCalculator.BottleneckListed | src/components/Dashboard/BasketCalculator.tsx:29-47 | the item of a line whose capacity equals the basket count is listed when at most three items pass the test |
| BasketCalculator.CestaPremiumFixture | src/utils/dummyData.ts:80-93 | on the fixture stock "Cesta Premium" allows 4 baskets and only coffee limits it |
| BasketCalculator.CestaGoldFixture | src/utils/dummyData.ts:94-107 | on the fixture stock "Cesta Gold" allows 8 baskets, limited by sugar and coffee |
| DecreaseStockBySales.DecreaseStockBySales | src/lib/decreaseStockBySales.ts:4-21 | same length; each item keeps every field but its quantity, which becomes max(0, quantity − units sold of it) |
| DecreaseStockBySales.TotalSold | src/lib/decreaseStockBySales.ts:7-9 | defines the units sold of an item; `TotalSoldAppend`, `UnmatchedIgnored` and `TotalSoldNonNegative` state its properties |
| DecreaseStockBySales.DecreaseExact | src/lib/decreaseStockBySales.ts:7-12 | when sales do not exceed the stock, exactly the units sold are taken off |
| DecreaseStockBySales.DecreaseOversold | src/lib/decreaseStockBySales.ts:12 | an oversold item drops to 0, never below |
| DecreaseStockBySales.UnsoldUnchanged | src/lib/decreaseStockBySales.ts:7-17 | an item no transaction sells comes back unchanged |
| DecreaseStockBySales.TotalSoldAppend | src/lib/decreaseStockBySales.ts:7-9 | the units sold over two batches of transactions add up |
| DecreaseStockBySales.UnmatchedIgnored | src/lib/decreaseStockBySales.ts:8 | a transaction for an item not in the list has no effect |
| DecreaseStockBySales.OrderIndependent | src/lib/decreaseStockBySales.ts:7-9 | the result does not depend on the order of the transactions |
| DecreaseStockBySales.Batches | src/lib/decreaseStockBySales.ts:4-21 | with non-negative quantities, applying two batches in turn equals applying them together |
| DecreaseStockBySales.TotalSoldNonNegative | src/lib/decreaseStockBySales.ts:7-9 | with non-negative quantities the units sold are never negative |
| StockOverview.LowStockItems | src/components/Dashboard/StockOverview.tsx:35 | exactly the items below their minimum, each from the stock |
| StockOverview.IsLow | src/components/Dashboard/StockOverview.tsx:35 | defines the low-stock test `quantity < minQuantity`; `StatusMatchesDashboard` ties the item list's colour to it |
| StockOverview.TotalItems | src/components/Dashboard/StockOverview.tsx:34 | defines the unit total; `TotalItemsBound` and `SortKeepsTotals` state its properties |
| StockOverview.TotalValue | src/components/Dashboard/StockOverview.tsx:37 | defines the stock value; `SortKeepsTotals` and `CategoriesCoverValue` relate it to the sort and the slices |
| StockOverview.LowStockPercentage | src/components/Dashboard/StockOverview.tsx:36 | the low-stock share lies in [0, 100] and is 0 for an empty stock |
| StockOverview.FullPercentage | src/components/Dashboard/StockOverview.tsx:36 | the share is 100 exactly when the stock is non-empty and every item is low |
| StockOverview.TotalItemsBound | src/components/Dashboard/StockOverview.tsx:34 | over a non-negative stock the unit total is at least each item's quantity |
| StockOverview.CategoryData | src/components/Dashboard/StockOverview.tsx:40-46 | three slices named "Alimentos", "Limpeza", "Outros", in that order |
| StockOverview.IsFood | src/components/Dashboard/StockOverview.tsx:41 | defines the food filter (name contains "Arroz" or "Feijão"); `OverlapCountsTwice` and `SoapInNoCategory` state its edge cases |
| StockOverview.IsCleaning | src/components/Dashboard/StockOverview.tsx:43 | defines the cleaning filter (name contains "Detergente" or "Sabão") |
| StockOverview.IsOther | src/components/Dashboard/StockOverview.tsx:44 | defines the "Outros" filter, which also excludes "Sabonete" |
| StockOverview.CategoryValue | src/components/Dashboard/StockOverview.tsx:41-44 | defines a slice's value; `CategoriesCoverValue` and `SoapIsDropped` state when the slices add up to the total |
| StockOverview.CategoriesCoverValue | src/components/Dashboard/StockOverview.tsx:37-46 | when no name holds "Sabonete" and no name is both food and cleaning, the slices add up to the total value |
| StockOverview.SoapInNoCategory | src/components/Dashboard/StockOverview.tsx:41-44 | an item named "Sabonete" is in none of the three slices |
| StockOverview.SoapIsDropped | src/components/Dashboard/StockOverview.tsx:37-46 | a stock of one "Sabonete" shows slices summing to 0 while its total value is quantity × price |
| StockOverview.OverlapCountsTwice | src/components/Dashboard/StockOverview.tsx:41-43 | a name holding both "Arroz" and "Sabão" is in the food and the cleaning slice |
| StockOverview.CriticalShown | src/components/Dashboard/StockOverview.tsx:111 | the critical panel lists the first min(3, low count) low items |
| StockOverview.CriticalOverflow | src/components/Dashboard/StockOverview.tsx:117-121 | the "+N" line appears exactly when more than three items are low, with a positive N |
| StockOverview.CriticalAccounting | src/components/Dashboard/StockOverview.tsx:111-121 | the items listed plus N equal the number of low items |
| StockOverview.TopValuable | src/components/Dashboard/StockOverview.tsx:169-171 | sorts the stock array in place by descending value (stably) and returns its first five |
| StockOverview.TopOf | src/components/Dashboard/StockOverview.tsx:171 | the top list has min(5, stock size) entries |
| StockOverview.SortKeepsTotals | src/components/Dashboard/StockOverview.tsx:34-37 | sorting the array in place keeps the unit total and the stock value |
| StockOverview.TopOfRanked | src/components/Dashboard/StockOverview.tsx:169-171 | the top list is in descending value, taken from the stock, and worth at least every item left out |
| StockOverview.TopTiesStable | src/components/Dashboard/StockOverview.tsx:170 | items of equal value keep their stock order |
| StockOverview.LowStockAfterSort | src/components/Dashboard/StockOverview.tsx:169-170 | after the in-place sort, later renders see the same low items with the same count, share and "+N", listed by descending value |
| StableSort.SortInPlace | src/components/Finance/FinancialSummary.tsx:89-91 | the in-place sort leaves the array equal to the stable sort of its old contents |
| StableSort.SortByKeySorted | src/components/Finance/FinancialSummary.tsx:89-91 | the sort's result is in ascending key order and a permutation of the input |
| StableSort.SortByKeyStable | src/components/Dashboard/StockOverview.tsx:170 | the elements of each key keep their input order |
| StableSort.SortByKeyStrict | src/components/Finance/FinancialSummary.tsx:89-91 | with pairwise distinct keys the result is strictly ascending |
| FinancialSummary.TotalSpentAppend | src/components/Finance/FinancialSummary.tsx:29 | recording a transaction adds its price to the total spent |
| FinancialSummary.TotalSpentTodayAppend | src/components/Finance/FinancialSummary.tsx:32-35 | today's total grows by a new transaction's price exactly when it is dated today |
| FinancialSummary.TodayWithinTotal | src/components/Finance/FinancialSummary.tsx:29-35 | with non-negative prices, 0 ≤ spent today ≤ spent overall |
| FinancialSummary.AllToday | src/components/Finance/FinancialSummary.tsx:29-35 | when every transaction is dated today both totals agree |
| FinancialSummary.TotalSpent | src/components/Finance/FinancialSummary.tsx:29 | defines the total spent; `TotalSpentAppend`, `RollupSum` and `ChartSum` state its properties |
| FinancialSummary.TotalSpentToday | src/components/Finance/FinancialSummary.tsx:32-35 | defines today's total; `TotalSpentTodayAppend`, `TodayWithinTotal` and `AllToday` state its properties |
| FinancialSummary.MonthIndex | src/components/Finance/FinancialSummary.tsx:76 | the month of a date lies in 0..11, and is -1 exactly when the date is not a well-formed "YYYY-MM-DD" |
| FinancialSummary.WellFormedDate | src/components/Finance/FinancialSummary.tsx:75 | defines the dates the model parses: "YYYY-MM-DD" with month 01..12 and day 01..31 |
| FinancialSummary.MonthName | src/components/Finance/FinancialSummary.tsx:76 | defines the month label, undefined for an unparsed date; `MonthRoundTrip` states that `indexOf` recovers the month |
| FinancialSummary.NameIndex | src/components/Finance/FinancialSummary.tsx:90 | `indexOf`: the first position of the name, or -1 when it is absent or undefined |
| FinancialSummary.YearIgnored | src/components/Finance/FinancialSummary.tsx:76 | two dates with the same month field share a chart month, whatever their years |
| FinancialSummary.MonthNamesDistinct | src/components/Finance/FinancialSummary.tsx:72 | the twelve month names are pairwise distinct |
| FinancialSummary.MonthRoundTrip | src/components/Finance/FinancialSummary.tsx:72-90 | looking a date's month name up again gives back its month index (-1 for undefined) |
| FinancialSummary.FindIndex | src/components/Finance/FinancialSummary.tsx:77 | the scan's position is that of the first entry with the name, as `acc.find` picks it, or the length when there is none |
| FinancialSummary.ChartData | src/components/Finance/FinancialSummary.tsx:74-91 | the reduce-then-sort loop returns `MonthlyChart`, the stable month sort of the roll-up |
| FinancialSummary.Rollup | src/components/Finance/FinancialSummary.tsx:74-86 | defines the reduce's accumulator; `RollupSummarises`, `RollupSum` and `RollupKeysDistinct` state what it holds |
| FinancialSummary.MonthlyChart | src/components/Finance/FinancialSummary.tsx:74-91 | defines the chart; `ChartOrdered`, `ChartTotals`, `ChartSum` and `ChartExample` state its properties |
| FinancialSummary.RollupSummarises | src/components/Finance/FinancialSummary.tsx:74-86 | the roll-up has one entry per month that occurs, each holding that month's total |
| FinancialSummary.RollupSum | src/components/Finance/FinancialSummary.tsx:74-86 | the roll-up's entries add up to the total spent |
| FinancialSummary.RollupKeysDistinct | src/components/Finance/FinancialSummary.tsx:74-91 | the roll-up's entries have pairwise distinct month keys |
| FinancialSummary.ChartEntries | src/components/Finance/FinancialSummary.tsx:89-91 | the sort keeps exactly the roll-up's entries |
| FinancialSummary.ChartOrdered | src/components/Finance/FinancialSummary.tsx:89-91 | the chart runs in strictly ascending calendar order, whatever the order of the transactions |
| FinancialSummary.ChartTotals | src/components/Finance/FinancialSummary.tsx:74-91 | the chart names exactly the months that occur, each with its month's total |
| FinancialSummary.ChartSum | src/components/Finance/FinancialSummary.tsx:74-91 | the chart's bars add up to the total spent |
| FinancialSummary.ChartExample | src/components/Finance/FinancialSummary.tsx:72-91 | April 100,00 and 25,00 plus May 50,00 chart as [Abr 125,00, Mai 50,00] |
| FinancialSummary.FixtureChart | src/components/Finance/FinancialSummary.tsx:15 | the page opens on the fixture ledger, which totals 1602,50 and charts as [Mar 500,00, Abr 1102,50] |
| FinancialSummary.EditTransactions | src/components/Finance/FinancialSummary.tsx:43-47 | same length and ids; the entries with the edited id take the form's fields, the others stay |
| FinancialSummary.DeleteTransaction | src/components/Finance/FinancialSummary.tsx:321-323 | no entry with the id remains and every other entry does |
| FinancialSummary.AutoTotalPrice | src/components/Finance/FinancialSummary.tsx:122-128 | unit price × quantity for a known item and a non-zero quantity, otherwise 0 |
| FinancialSummary.SaveRejected | src/components/Finance/FinancialSummary.tsx:38-41 | a form without date, item, quantity or price saves nothing |
| FinancialSummary.SaveAppends | src/components/Finance/FinancialSummary.tsx:49-55 | outside edit mode a valid form appends one transaction with the fresh id, adding its price to the total |
| FinancialSummary.SaveEdits | src/components/Finance/FinancialSummary.tsx:43-47 | in edit mode the entry with the id takes the form's fields in place, and the total changes by the price difference |
| FinancialSummary.EditIdempotent | src/components/Finance/FinancialSummary.tsx:43-47 | saving the same edit twice equals saving it once |
| FinancialSummary.DeleteExact | src/components/Finance/FinancialSummary.tsx:321-323 | deleting drops every entry with the id and keeps every other with its multiplicity |
| FinancialSummary.DeleteAbsent | src/components/Finance/FinancialSummary.tsx:321-323 | deleting an id no entry carries changes nothing |
| FinancialSummary.AutoPriceSavable | src/components/Finance/FinancialSummary.tsx:122-128 | the filled-in price is non-zero exactly when the item is known and quantity and unit price are non-zero |
| FinancialSummary.CanSave | src/components/Finance/FinancialSummary.tsx:38 | defines the truthiness check on date, item, quantity and price; `SaveRejected` states its effect |
| FinancialSummary.EditsExisting | src/components/Finance/FinancialSummary.tsx:43 | defines when saving edits: edit mode on and a non-empty editing id |
| FinancialSummary.SaveTransaction | src/components/Finance/FinancialSummary.tsx:37-57 | defines the ledger after saving; `SaveRejected`, `SaveAppends` and `SaveEdits` state its three cases |
| FinancialSummary.FinancialSummaryPage.constructor | src/components/Finance/FinancialSummary.tsx:15-27 | the page opens with the given ledger, a blank form dated today, the dialog closed and no edit in progress |
| FinancialSummary.FinancialSummaryPage.HandleAddTransaction | src/components/Finance/FinancialSummary.tsx:37-69 | the ledger becomes `SaveTransaction` of the old state; on success the form is reset and the dialog closed, otherwise nothing else changes |
| FinancialSummary.FinancialSummaryPage.StartEdit | src/components/Finance/FinancialSummary.tsx:301-311 | edit mode on for the entry, its fields in the form, the dialog open, the ledger unchanged |
| FinancialSummary.FinancialSummaryPage.Delete | src/components/Finance/FinancialSummary.tsx:321-323 | a confirmed delete filters the entry out; a declined one changes nothing |
| FinancialSummary.FinancialSummaryPage.SelectItem | src/components/Finance/FinancialSummary.tsx:122-128 | picking an item sets the item and refills the total price from the catalogue at the current quantity |
| FinancialSummary.FinancialSummaryPage.SetQuantity | src/components/Finance/FinancialSummary.tsx:152-159 | typing a quantity sets it and refills the total price from the catalogue for the current item |
| FinancialSummary.FinancialSummaryPage.SetTotalPrice | src/components/Finance/FinancialSummary.tsx:171 | typing a price overrides the filled-in one |
| FinancialContext.AppendTransaction | src/contexts/FinancialContext.tsx:22-28 | one more transaction at the end, with the new id and the given fields; earlier ones unchanged |
| FinancialContext.AppendAllRecords | src/contexts/FinancialContext.tsx:22-28 | a run of additions records each one, in order, after what was there |
| FinancialContext.FinancialStore.constructor | src/contexts/FinancialContext.tsx:20 | the ledger starts empty |
| FinancialContext.FinancialStore.AddTransaction | src/contexts/FinancialContext.tsx:22-28 | the ledger becomes `AppendTransaction` of the old one |
| BasketModelsList.AddLineRejected | src/components/Baskets/BasketModelsList.tsx:26-29 | a line without an item or with a quantity ≤ 0 leaves the draft alone |
| BasketModelsList.AcceptsLine | src/components/Baskets/BasketModelsList.tsx:26 | defines the add button's check: an item chosen and a positive quantity |
| BasketModelsList.AddLine | src/components/Baskets/BasketModelsList.tsx:25-45 | defines the draft after "add item"; `AddLineRejected`, `AddLineMerges`, `AddLineAppends` and `AddLineValid` state its cases |
| BasketModelsList.AddLineMerges | src/components/Baskets/BasketModelsList.tsx:32-38 | an item already in the draft has its quantity raised by the amount added, nothing else changes |
| BasketModelsList.AddLineAppends | src/components/Baskets/BasketModelsList.tsx:39-45 | a new item is appended as one more line |
| BasketModelsList.AddLineValid | src/components/Baskets/BasketModelsList.tsx:25-51 | adding keeps every draft line chosen, positive and unique per item |
| BasketModelsList.RemoveLineExact | src/components/Baskets/BasketModelsList.tsx:53-60 | removing drops exactly that item's line and keeps the rest in order |
| BasketModelsList.RemoveLineValid | src/components/Baskets/BasketModelsList.tsx:53-60 | removing keeps the draft valid |
| BasketModelsList.RemoveLine | src/components/Baskets/BasketModelsList.tsx:53-59 | defines the draft after removing an item; `RemoveLineExact`, `RemoveLineValid` and `RemoveLineCost` state its properties |
| BasketModelsList.CanSaveModel | src/components/Baskets/BasketModelsList.tsx:63 | defines the save check: a name and at least one line |
| BasketModelsList.SaveModel | src/components/Baskets/BasketModelsList.tsx:62-73 | defines the models after saving; `SavedModelWellFormed` states what a saved model satisfies |
| BasketModelsList.SavedModelWellFormed | src/components/Baskets/BasketModelsList.tsx:62-80 | a saved model has a name, at least one line and positive needs, as the basket calculator requires |
| BasketModelsList.ItemName | src/components/Baskets/BasketModelsList.tsx:90-93 | the item's name, or "Item desconhecido" for an unknown id |
| BasketModelsList.LineCost | src/components/Baskets/BasketModelsList.tsx:84-86 | defines one line's contribution to the cost; `LineCostSplit` and `UnknownLinesFree` state its properties |
| BasketModelsList.ModelCost | src/components/Baskets/BasketModelsList.tsx:82-88 | defines a model's cost; `AddLineCost` and `RemoveLineCost` state how the editor changes it |
| BasketModelsList.UnknownLinesFree | src/components/Baskets/BasketModelsList.tsx:82-88 | lines whose item is unknown add nothing to the cost |
| BasketModelsList.LineCostSplit | src/components/Baskets/BasketModelsList.tsx:86 | a line's cost is linear in its quantity |
| BasketModelsList.AddLineCost | src/components/Baskets/BasketModelsList.tsx:25-51 | adding a line, merged or appended, raises the cost by that line's cost |
| BasketModelsList.RemoveLineCost | src/components/Baskets/BasketModelsList.tsx:53-60 | removing an item's line lowers the cost by exactly that line's cost |
| BasketModelsList.BasketModelsPage.constructor | src/components/Baskets/BasketModelsList.tsx:15-23 | the editor starts empty, with the line editor at item "" and quantity 1 |
| BasketModelsList.BasketModelsPage.HandleAddItemToModel | src/components/Baskets/BasketModelsList.tsx:25-51 | the draft becomes `AddLine` of the old draft and the line editor resets on success; the draft stays valid |
| BasketModelsList.BasketModelsPage.HandleRemoveItemFromModel | src/components/Baskets/BasketModelsList.tsx:53-60 | the draft becomes `RemoveLine` of the old one and stays valid |
| BasketModelsList.BasketModelsPage.HandleSaveModel | src/components/Baskets/BasketModelsList.tsx:62-80 | the models become `SaveModel` of the old state; on success the editor is cleared and closed |
| BasketModelsList.BasketModelsPage.SetDraftName | src/components/Baskets/BasketModelsList.tsx:115 | typing the model's name changes only the name |
| BasketModelsList.BasketModelsPage.SetNewLine | src/components/Baskets/BasketModelsList.tsx:124-143 | the line editor's fields change and nothing else |
| ItemsList.ToLower | src/components/Items/ItemsList.tsx:52 | same length; each character lower-cased and none left upper-case |
| ItemsList.ToLowerIdempotent | src/components/Items/ItemsList.tsx:52 | lower-casing twice equals lower-casing once |
| ItemsList.EmptySearchKeepsAll | src/components/Items/ItemsList.tsx:51-53 | an empty search shows every item |
| ItemsList.SearchIgnoresTermCase | src/components/Items/ItemsList.tsx:51-53 | the case of the search term does not matter |
| ItemsList.SearchIdempotent | src/components/Items/ItemsList.tsx:51-53 | searching the result again with the same term changes nothing |
| ItemsList.SearchMembership | src/components/Items/ItemsList.tsx:51-53 | an item is shown exactly when it is in the list and its lower-cased name contains the lower-cased term as a substring |
| ItemsList.FilteredItems | src/components/Items/ItemsList.tsx:51-53 | defines the search result; `SearchMembership`, `EmptySearchKeepsAll`, `SearchIgnoresTermCase` and `SearchIdempotent` state its properties |
| ItemsList.Overwrite | src/components/Items/ItemsList.tsx:99 | `{...item, ...draft}`: the form's five fields win; id, date and category come from the item copied into the form |
| ItemsList.DraftOf | src/components/Items/ItemsList.tsx:87 | defines the form filled by the edit button, a copy of the item |
| ItemsList.CanSaveItem | src/components/Items/ItemsList.tsx:66 | defines the add and save check: a name and a unit |
| ItemsList.NewItem | src/components/Items/ItemsList.tsx:71-75 | the new item carries the form's fields, the fresh id and today's date |
| ItemsList.EditItems | src/components/Items/ItemsList.tsx:98-100 | same length; the current item is overwritten by the form, the others stay |
| ItemsList.UpdateQuantity | src/components/Items/ItemsList.tsx:126-135 | a negative quantity is ignored; otherwise the items with the id take it and nothing else changes |
| ItemsList.EditKeepsOthers | src/components/Items/ItemsList.tsx:92-109 | an edit keeps the length, every other item and the edited item's id |
| ItemsList.NoCurrentNoChange | src/components/Items/ItemsList.tsx:98-117 | with no current item, edit and delete change nothing |
| ItemsList.DeleteItems | src/components/Items/ItemsList.tsx:117 | defines the list after deleting; `DeleteExact` and `NoCurrentNoChange` state its effect |
| ItemsList.DeleteExact | src/components/Items/ItemsList.tsx:116-124 | deleting drops every item with the id and keeps every other with its multiplicity |
| ItemsList.UpdateKeepsNonNegative | src/components/Items/ItemsList.tsx:126-135 | quantity updates never make a quantity negative |
| ItemsList.DecrementAtZero | src/components/Items/ItemsList.tsx:239 | the - button on an empty item changes nothing |
| ItemsList.DecrementIncrement | src/components/Items/ItemsList.tsx:239-258 | - then + restores an item with a unique id and a positive quantity |
| ItemsList.AddAppends | src/components/Items/ItemsList.tsx:65-84 | an added item goes at the end with the form's fields, the fresh id and today's date |
| ItemsList.Status | src/components/Items/ItemsList.tsx:244-250 | defines the quantity's colour; `StatusMatchesDashboard`, `EmptyItemStatus` and `InStockMeans` state which items get which |
| ItemsList.StatusMatchesDashboard | src/components/Items/ItemsList.tsx:244-250 | the low-stock colour is shown exactly for the items the dashboard counts as low |
| ItemsList.EmptyItemStatus | src/components/Items/ItemsList.tsx:244-250 | an empty item shows as low stock when its minimum is positive, otherwise as out of stock |
| ItemsList.InStockMeans | src/components/Items/ItemsList.tsx:244-250 | the plain colour is shown exactly for a non-zero quantity at or above the minimum |
| ItemsList.ItemsPage.constructor | src/components/Items/ItemsList.tsx:15-24 | the page starts with the loaded items, an empty search, a blank form and no dialog open |
| ItemsList.ItemsPage.HandleAddItem | src/components/Items/ItemsList.tsx:65-84 | a valid form appends `NewItem`, resets and closes; an invalid one changes nothing |
| ItemsList.ItemsPage.HandleEditClick | src/components/Items/ItemsList.tsx:86-90 | the form gets a copy of the item, which becomes current, and the edit dialog opens |
| ItemsList.ItemsPage.HandleEditItem | src/components/Items/ItemsList.tsx:92-109 | a valid form makes the list `EditItems` of the old state, then resets and closes |
| ItemsList.ItemsPage.HandleDeleteClick | src/components/Items/ItemsList.tsx:111-114 | the item becomes current and the delete dialog opens |
| ItemsList.ItemsPage.HandleDeleteItem | src/components/Items/ItemsList.tsx:116-124 | the list becomes `DeleteItems` of the old state, no item is current, the dialog closes |
| ItemsList.ItemsPage.HandleUpdateQuantity | src/components/Items/ItemsList.tsx:126-135 | the list becomes `UpdateQuantity` of the old list |
| ItemsList.ItemsPage.SetSearchTerm | src/components/Items/ItemsList.tsx:16 | only the search term changes |
| ItemsList.ItemsPage.SetDraftFields | src/components/Items/ItemsList.tsx:55-63 | only the form's five fields change |
| UserManagement.EditUsers | src/components/Users/UserManagement.tsx:28 | same length and ids; users with the edited id take the form's name and e-mail, the others stay |
| UserManagement.DeleteUsers | src/components/Users/UserManagement.tsx:55 | no user with the id remains; every remaining user was in the table |
| UserManagement.SaveUsers | src/components/Users/UserManagement.tsx:21-38 | defines the table after saving; `SaveRejected`, `SaveAppends` and `SaveEditsKeepIds` state its three cases |
| UserManagement.SaveRejected | src/components/Users/UserManagement.tsx:22-25 | a missing user name or e-mail leaves the table alone |
| UserManagement.SaveAppends | src/components/Users/UserManagement.tsx:30-37 | creating appends one user with the fresh id and the form's fields, and keeps ids unique when the id is new |
| UserManagement.SaveEditsKeepIds | src/components/Users/UserManagement.tsx:27-29 | updating keeps the length and every id, so unique ids stay unique |
| UserManagement.EditIdempotent | src/components/Users/UserManagement.tsx:28 | saving the same update twice equals saving it once |
| UserManagement.EditUnchangedDraft | src/components/Users/UserManagement.tsx:46-51 | opening a user for editing and saving without typing leaves the table as it was |
| UserManagement.EditUnknownId | src/components/Users/UserManagement.tsx:28 | updating an id nobody has changes nothing |
| UserManagement.DeleteExact | src/components/Users/UserManagement.tsx:53-58 | with unique ids, deleting removes exactly that user's row |
| UserManagement.DeleteAbsent | src/components/Users/UserManagement.tsx:55 | deleting an id nobody has keeps the table |
| UserManagement.DeleteKeepsUnique | src/components/Users/UserManagement.tsx:55 | deleting keeps the ids unique |
| UserManagement.EditThenDelete | src/components/Users/UserManagement.tsx:28-55 | deleting a user after editing it equals deleting it straight away |
| UserManagement.UserManagementPage.constructor | src/components/Users/UserManagement.tsx:15-19 | no users, dialog closed, blank form, not editing |
| UserManagement.UserManagementPage.HandleAddOrUpdateUser | src/components/Users/UserManagement.tsx:21-44 | the table becomes `SaveUsers` of the old state; on success the form resets, the dialog closes and edit mode ends |
| UserManagement.UserManagementPage.HandleEditUser | src/components/Users/UserManagement.tsx:46-51 | edit mode on for the user, their fields in the form, the dialog open |
| UserManagement.UserManagementPage.HandleDeleteUser | src/components/Users/UserManagement.tsx:53-58 | a confirmed delete filters the user out; a declined one changes nothing |
| UserManagement.UserManagementPage.SetDraft | src/components/Users/UserManagement.tsx:79-88 | typing changes only the form |
| UserManagement.UserManagementPage.SetDialogOpen | src/components/Users/UserManagement.tsx:63 | opening or dismissing the dialog keeps the editing state |
| Navbar.Rank | src/components/Navbar.tsx:37-41 | the position of each tab in the order the keywords are tried, the dashboard last |
| Navbar.ActiveTab | src/components/Navbar.tsx:35-42 | defines the highlighted tab; `ActiveTabFirstKeyword` states that it is the first tab whose keyword the path contains |
| Navbar.ActiveTabFirstKeyword | src/components/Navbar.tsx:35-42 | the highlighted tab is the first of items, baskets, models, finance whose keyword the path contains, else the dashboard |
| Navbar.NavRoundTrip | src/components/Navbar.tsx:46-53 | following any link of the bar highlights that link's own tab |
| Navbar.AtMostOneActive | src/components/Navbar.tsx:46-53 | the links have distinct tabs, so at most one link is highlighted |
| Navbar.SomeLinkActive | src/components/Navbar.tsx:44-53 | some link is highlighted exactly when the path does not select the models tab |
| Navbar.ItemsFirst | src/components/Navbar.tsx:37 | a path containing "items" highlights the items tab whatever else it contains |
| Navbar.ModelsRouteSelectsModels | src/components/Navbar.tsx:39 | "/models" selects the models tab |
| Navbar.NoModelsLink | src/components/Navbar.tsx:46-53 | none of the four links leads to the basket models tab |
| Navbar.ModelsRouteUnhighlighted | src/components/Navbar.tsx:46-53 | on "/models" no link of the bar is highlighted |
| Navbar.NavbarState.constructor | src/components/Navbar.tsx:30-31 | the menu starts closed |
| Navbar.NavbarState.ToggleMenu | src/components/Navbar.tsx:75 | the menu button flips the menu |
| Navbar.NavbarState.HandleTabChange | src/components/Navbar.tsx:55-59 | a click on a link closes the menu on a phone and leaves it alone otherwise |
| AuthContext.LoginStep | src/contexts/AuthContext.tsx:47-58 | login succeeds exactly for admin/123456, then holds the admin user; a failure keeps the session |
| AuthContext.LoginAuthenticates | src/contexts/AuthContext.tsx:47-54 | a successful login authenticates, with role "admin", whatever the session held |
| AuthContext.FailedLoginKeepsSession | src/contexts/AuthContext.tsx:55-57 | a failed login neither signs in nor signs out |
| AuthContext.LoginIdempotent | src/contexts/AuthContext.tsx:47-58 | logging in again with the same credentials changes nothing |
| AuthContext.OnlyAdminSessions | src/contexts/AuthContext.tsx:33-66 | starting signed out, no series of logins and logouts holds any user but the admin |
| AuthContext.AuthenticatedAfter | src/contexts/AuthContext.tsx:47-69 | starting signed out, the session is authenticated exactly when some login succeeded and no logout came after it |
| AuthContext.AuthProvider.constructor | src/contexts/AuthContext.tsx:33 | the session starts empty |
| AuthContext.AuthProvider.RestoreSession | src/contexts/AuthContext.tsx:36-45 | a user found in storage becomes the session; nothing found or unreadable keeps it |
| AuthContext.AuthProvider.Login | src/contexts/AuthContext.tsx:47-58 | the result and the new session are those of `LoginStep` on the old session |
| AuthContext.AuthProvider.Logout | src/contexts/AuthContext.tsx:61-66 | the session is emptied and no longer authenticated |
| AuthContext.AuthProvider.IsAuthenticated | src/contexts/AuthContext.tsx:69 | defines `isAuthenticated` as `!!user`; `AuthenticatedAfter` states when it holds |

## Left out

- Browser storage: the item register and the stock dashboard load the item list from `localStorage`, the item register writes it back after every change, and the auth provider restores a saved session. Writes are left out. What a load yields is a parameter: of `ItemsPage.constructor`, of `AuthProvider.RestoreSession`, and of the dashboard's figures, which are functions of the list. JSON parsing and its failure are not modelled. The finance and basket-model pages do not use storage. They open on the fixture ledger and the fixture models, which their constructors receive.
- Toast messages, dialog animation, routing (`navigate('/login')` after logout), icons, styling and chart rendering are not modelled. They change no data.
- `Date.now()`, `new Date()`, `confirm(...)`, `useIsMobile()` and `location.pathname` are parameters. Nothing makes two ids from the clock distinct, so uniqueness of ids is a precondition of the lemmas that need it.
- Floating point: prices and money are integer cents. The 10% slack `cap <= max * 1.1` is the exact `10 * cap <= 11 * max`. `toFixed` display rounding is left out. The low-stock percentage is a Dafny `real`.
- `Number(...)` on form input (`NaN`, fractional quantities) is not modelled. Quantities are integers.
- FinancialSummary.MonthIndex: the month comes from the "MM" field of a "YYYY-MM-DD" date, with a month 01..12 and a day 01..31; anything else is malformed (key -1, month name undefined). The source parses the date with `new Date` and reads `getMonth()` in the local time zone, so a date can fall into the previous month west of UTC. A day the month does not have ("2023-02-30") is charted under the month written. JavaScript engines differ on such a date: V8 rolls it into the next month, and Firefox yields an invalid date, whose month name is undefined.
- StockOverview.LowStockItems and StockOverview.CriticalShown: functions of the stock array as they receive it. The source sorts that array in place while rendering the top five, so from the second render on they see it in descending value order. `LowStockAfterSort` states what that changes. The model has no sequence of renders beyond that.
- ItemsList.ToLower: `toLowerCase` is modelled for ASCII and Latin-1 capitals only. Other Unicode case mappings are left out.
- BasketCalculator.PossibleBaskets: requires at least one line and positive needs. The source's `Math.min()` of no lines is `Infinity`, and a need of 0 divides by zero. Neither can come from the model editor.
- BasketModelsList.BasketModelsPage.HandleAddItemToModel: the source raises the merged line's quantity by mutating the line object shared with the previous draft. The model builds a new line, so that aliasing is not captured.
- FinancialSummary.ChartData: the accumulator entries are rebuilt as values where the source mutates `existing.total` in place. The final sort does work in place on an array.
- The catalogue the basket-model and finance pages read is the fixture `items` they import. It is a parameter of the functions that read it.
- The fixture's "Cesta Prata" and "Cesta Bronze" models, the basket inventory, and `TransactionHistory` are outside the core.
