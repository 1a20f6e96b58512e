# Sales statistics and seller bonuses, modelled in Dafny

The modelled program is a single routine, `analyzeSalesData`, plus the two formulas it is normally
given. The routine takes a collection of sellers, a product catalogue and a list of purchase
records. It works in these steps:

- It rejects the input unless all three collections are non-empty arrays.
- It builds one zeroed accumulator per seller, a dictionary from seller id to accumulator and a
  dictionary from sku to product card.
- It folds every purchase record into the accumulator of its seller. The record's total goes to
  revenue. Revenue minus cost of each line with a known sku goes to profit. Line quantities are
  counted per sku. The record count goes up by one.
- It ranks the accumulators by profit, highest first.
- It gives each seller a bonus for its place and a list of its ten best-selling products.
- It returns one summary record per seller.

The two formulas are:

- `calculateSimpleRevenue`: the sale price minus a percentage discount, times the quantity.
- `calculateBonusByProfit`: 15 % of profit for the first place, 10 % for the second and third,
  nothing for the last and 5 % for everyone else.

The branches of the bonus formula are tried in that order. So a lone seller gets 15 %, and the
third of exactly three sellers gets 10 %, not nothing. A reading of the schedule as "the last place
always gets nothing" disagrees with the code for one, two or three sellers. The model follows the
code, and `Formulas.LastPlaceBonus` states exactly when the last place gets nothing.

Layout:

- `types.dfy` (module `SalesTypes`): the records the routine reads, builds and returns.
- `formulas.dfy` (module `Formulas`): the two formulas.
- `accumulation.dfy` (module `Accumulation`): the functions that say what the accumulators hold
  after the fold. They are written in the order the routine visits records and lines. Beside them
  are plain sums over the records credited to a seller, and lemmas tying the two together.
- `sorting.dfy` (module `Sorting`): the comparison sort the routine uses twice. It yields a
  permutation in non-increasing order of a key.
- `analysis.dfy` (module `Analysis`): the routine itself, one method per step. Each step is proved
  against the functions above or against the specification predicates `IsTopProducts` and
  `IsReport`.
- `properties.dfy` (module `SalesProperties`): what a caller can rely on, in terms of the input.

The formulas are parameters of the routine, as in the source. The whole-routine property states
the result for any formulas. `SalesProperties.StandardBonuses` specialises it to the standard
bonus formula.

## Model

| member | source | states |
|---|---|---|
| Formulas.SimpleRevenue | src/main.js:7-12 | With no discount the revenue is price times quantity. It is 0 for a zero quantity or a 100 % discount. For a discount between 0 and 100 and a non-negative price and quantity, it lies between 0 and price times quantity. |
| Formulas.RevenueFallsWithDiscount | src/main.js:9-11 | For a non-negative price and quantity, a larger discount never gives a larger revenue. |
| Formulas.BonusByProfit | src/main.js:21-41 | Place 0 gets 15 % of profit; place 1 of at least two and place 2 of at least three get 10 %. A last place from index 3 on gets 0; any other place from index 3 on gets 5 %. For a place in range and a non-negative profit, the bonus lies between 0 and 15 % of profit. |
| Formulas.LastPlaceBonus | src/main.js:25-36 | For a non-zero profit the last place gets no bonus if and only if there are at least four sellers. |
| Formulas.BonusFallsWithRank | src/main.js:21-41 | For a non-negative profit a better place never earns a smaller bonus. |
| Accumulation.FullName | src/main.js:66 | The display name is the first name, one space, then the last name. |
| Accumulation.InitialStats | src/main.js:64-71 | One accumulator per seller, in input order. Each has the seller's id and full name, zero revenue, profit and record count, and no products sold. |
| Accumulation.SellerIndex | src/main.js:74-75 | Every seller id is in the dictionary. Each stored position holds an accumulator with that id. When ids are shared, the latest position is stored. |
| Accumulation.ProductIndex | src/main.js:77-78 | Every card is stored under its own sku, and the last card of the catalogue is stored under its sku. `ProductIndexSound` and `ProductIndexComplete` state the rest. |
| Accumulation.ProductIndexSound | src/main.js:77-78 | Every card in the sku dictionary is a catalogue card stored under its own sku. |
| Accumulation.ProductIndexComplete | src/main.js:77-78 | Every catalogue sku is in the dictionary. The card stored is the last card with that sku. |
| Accumulation.ApplyItem | src/main.js:88-97 | One line leaves id, name, revenue and record count unchanged. A line without a card changes nothing. A line with a card adds its revenue minus cost to profit, its sku to the skus sold and its quantity to that sku's count. Every other sku's count is unchanged. |
| Accumulation.ApplyItems | src/main.js:87-98 | A record's lines leave id, name, revenue and record count unchanged and never drop a sku. `ApplyItemsEffect` states the full effect. |
| Accumulation.ApplyItemsEffect | src/main.js:87-98 | Folding in a record's lines leaves id, name, revenue and record count unchanged. Profit grows by revenue minus cost over the lines with a known sku. Each sku's quantity grows by its quantity on those lines, and the set of skus grows by exactly their skus. |
| Accumulation.UnknownLinesChangeNothing | src/main.js:88-89 | Lines whose skus all lack a product card leave the accumulator unchanged. |
| Accumulation.RecordWithUnknownSkus | src/main.js:82-100 | A known seller's record with no priced line still adds its total to revenue and 1 to the record count. Nothing else changes. |
| Accumulation.UnknownSellerIgnored | src/main.js:82-83 | A record whose seller id is not in the index changes no accumulator. |
| Accumulation.ApplyRecord | src/main.js:82-100 | One accumulator per seller, ids and names unchanged. Accumulators the record is not routed to stay as they were. The one it is routed to gains the record's total in revenue and 1 in record count. Its profit grows by revenue minus cost over the lines with a known sku, its skus grow by exactly their skus, and each sku's count grows by its quantity on those lines. |
| Accumulation.ApplyRecords | src/main.js:81-101 | One accumulator per seller, ids and names unchanged, record counts never decreasing. `ApplyRecordsEffect` states the full effect. |
| Accumulation.ApplyRecordsEffect | src/main.js:81-101 | After the fold, accumulator k holds the following, added to its start values: the number of records credited to it, their totals, their line profit, and each sku's quantity sold on them. Its id and name are unchanged. |
| Accumulation.Accumulate | src/main.js:64-101 | The fold yields one accumulator per seller, in seller order. `AccumulateTotals` states what each one holds. |
| Accumulation.AccumulateTotals | src/main.js:64-101 | Seller k's accumulator holds its id and full name. It also holds the number and total amount of the records routed to it, their line profit, and each sku's quantity on them. Records go to the last seller with the record's id; lines count only when their sku has a card. |
| Sorting.SortByKeyDescending | src/main.js:106 | The result is a permutation of the input (equal multisets) in non-increasing order of the key. |
| Sorting.InsertDescending | src/main.js:106 | Inserting into an ordered sequence adds exactly the new element and keeps the order. |
| Analysis.WellFormed | src/main.js:53-58 | The input is accepted only if it is present and all three collections are arrays. An empty sellers, products or records array makes it rejected. |
| Analysis.IndexSellers | src/main.js:74-75 | The loop builds exactly the id-to-position dictionary `SellerIndex`. |
| Analysis.IndexProducts | src/main.js:77-78 | The loop builds exactly the sku-to-card dictionary `ProductIndex`. |
| Analysis.FoldRecords | src/main.js:81-101 | The loop over records, which updates the seller's accumulator field by field, computes exactly the fold `ApplyRecords`. Records of unknown sellers are skipped. |
| Analysis.FoldItems | src/main.js:87-98 | The loop over a record's lines computes exactly the fold `ApplyItems`. Lines without a product card are skipped. |
| Analysis.FoldItem | src/main.js:88-97 | Folding one line in, field by field, computes exactly `ApplyItem`: a line without a product card is skipped. |
| Analysis.Entries | src/main.js:111-112 | The entries are exactly the (sku, quantity) pairs of the products-sold dictionary, each sku once. |
| Analysis.TopProducts | src/main.js:111-114 | The list is a top-ten list. It has min(10, number of skus) entries, each a sku sold with its quantity, none twice, in non-increasing quantity. No sku left out sold more than a listed one. |
| Analysis.TopOfSorted | src/main.js:113-114 | Cutting the sorted entries to the first ten gives a top-ten list. |
| Analysis.AssignBonuses | src/main.js:109-115 | The seller at place i of n gets the bonus the formula gives for (i, n, seller), and a top-ten list of its products sold. |
| Analysis.Project | src/main.js:118-126 | The output record keeps the top-products list. When that list is a top-ten list of the accumulator, the record reports the accumulator with its bonus (id, name, revenue, profit, record count, bonus). |
| Analysis.AnalyzeSalesData | src/main.js:49-127 | The routine fails exactly when the input is missing or a collection is not a non-empty array. Otherwise it returns a report on the accumulators: an ordering by non-increasing profit whose entries carry id, name, revenue, profit, record count, the formula's bonus for their place, and a top-ten list. |
| SalesProperties.ReportShape | src/main.js:106-126 | A report has one entry per accumulator, in non-increasing profit. It holds each seller id as often as the accumulators do. Every top list has at most 10 entries, and every entry reports one accumulator. |
| SalesProperties.AccumulatedIds | src/main.js:64-71 | The accumulators carry the sellers' ids in the sellers' order. |
| SalesProperties.EntryFigures | src/main.js:118-124 | An entry reporting seller k's accumulator carries seller k's figures, stated as sums over the input records. |
| SalesProperties.ResultPerSeller | src/main.js:49-127 | A successful result has as many entries as there are sellers, and holds each seller id as often as the input does. Each entry carries some seller's figures: name, record count, total revenue, line profit, and top-list skus with their quantities on that seller's records. Conversely, every seller's figures are carried by some entry. |
| SalesProperties.StandardBonuses | src/main.js:21-41 | With the standard formula: 15 % for the first entry and 10 % for the second and third. The last of four or more gets 0, and every other entry 5 %. |
| SalesProperties.StandardBonusesFollowRanking | src/main.js:106-110 | With the standard formula and no seller at a loss, bonuses do not increase down the result. |

## Left out

- Analysis.AnalyzeSalesData, Analysis.Project: revenue, profit and bonus are returned unrounded. The routine rounds them to two decimals with `toFixed(2)`, which is a floating-point operation this model does not have.
- Money and quantities are exact reals. IEEE-754 rounding, NaN and infinities are not modelled.
- Sorting.SortByKeyDescending: leaves the order of equal keys open. The routine's library sort is stable, so its ties keep input order.
- Analysis.TopProducts: leaves the order of skus with equal quantities open, and so which of them fall past the tenth place. In the routine that order depends on the dictionary's key enumeration order followed by the stable sort.
- The `options` argument is taken apart without checks. Only a missing or null `options` fails before validation, when it is destructured. A formula that is not a function fails at its first call, after validation: the revenue formula only when a record of a known seller has a line whose sku has a card, the bonus formula at the first ranked seller. The model takes both formulas as total functions, so neither failure is modelled.
- Dictionary lookups in the routine go through plain objects, so a key like `constructor` would find an inherited property. The model's dictionaries are maps and hold only what was stored.
- Input fields of the wrong type (a non-array `items`, a missing `total_amount`, null elements) are not modelled. Every field has its declared type. Only the three top-level collections can be "not an array", as `None`.
- The routine updates shared accumulator objects, reached through the id dictionary, and later adds `bonus` and `top_products` to them. The model keeps the accumulators as values in a sequence and stores their positions in the id dictionary, so the aliasing is represented by positions. The ranking step builds new `RankedSeller` values.
