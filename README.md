# BOM resolver of bomDatabase, in Dafny

`bom_manager.py` keeps a bill-of-materials database. A product uses components,
through `bom_entries` rows, and other products as sub-assemblies, through
`sub_assemblies` rows. Components are bought from distributors, through
`component_sources` rows. The resolver walks this product graph depth first. It
carries a multiplier: the root quantity times each ancestor's edge quantity. The
walk serves two operations:

- `calculate_bom_cost` returns a total cost and a breakdown. The breakdown has
  one line per priced direct component, then one rollup line per sub-assembly.
- `get_flattened_bom` merges every component reached anywhere below the product
  into one entry per (manufacturer part number, manufacturer).

The two write operations on the source table are also modelled:

- `add_component_source` is an upsert: it updates the row of a
  (component, distributor) pair or inserts one.
- `cleanup_duplicate_sources` keeps one row per pair.

The project has six files:

- `bom_tables.dfy` (module `BomTables`): the tables as an immutable snapshot, and
  the two queries of `get_product_bom`. These are the do-not-populate filter, the
  inner joins and the cheapest-source choice. It also defines the acyclicity
  rank the recursion needs.
- `cost_rollup.dfy` (module `CostRollup`): the cost rollup as recursive
  functions, with lemmas on its sum, its shape and its linearity.
- `flatten.dfy` (module `Flatten`): the flattening as a merge, into a dictionary,
  of the list of lines the walk meets. It also has an independent per-key
  reference total.
- `source_rules.dfy` (module `SourceRules`): the upsert and the cleanup as
  functions of the source rows.
- `bom_database.dfy` (module `BomDatabase`): the manager as a class whose fields
  are the tables. `CalculateBomCost`, `FlattenRecursive`, `AddComponentSource`
  and `CleanupDuplicateSources` are loops over those fields, or updates of them,
  and each is proved against the functions above. `FlatTable` is the shared
  dictionary that the nested `flatten_recursive` fills.
- `cost_flatten.dfy` (module `CostFlatten`): the two resolvers against each
  other. The cost total is the cost of every component line the walk reaches.
  When each (part number, manufacturer) names one component, pricing out the
  flattened lines gives the same total.

The recursion terminates only on acyclic graphs, and the source never checks
for a cycle: on a cycle reachable from the product it raises Python's `RecursionError`, which no code in
`bom_manager.py` catches. The model takes a ghost `rank` that strictly decreases along every
sub-assembly edge (`BomTables.Ranked`). Every recursive function and method
requires it.

## Model

| member | source | states |
|---|---|---|
| BomTables.BestSourceIsCheapest | bom_manager.py:242-256 | The chosen source is one of the component's rows. It has a cost, and that cost is no greater than any other priced source of the component. There is no chosen source exactly when no source of the component has a cost. |
| BomTables.SqlFirstSource | bom_manager.py:242-256 | The row the sub-selects return as written, with NULL costs sorted first. It is a row of the component, and there is none exactly when the component has no source. |
| BomTables.SqlFirstPrefersUnpriced | bom_manager.py:242-256 | As written, a component with any unpriced source is given an unpriced source. |
| BomTables.SqlFirstAgreesWhenPriced | bom_manager.py:242-256 | When all of a component's sources are priced, the query as written and `BestSource` pick the same row. |
| BomTables.NullCostSortsFirst | bom_manager.py:242-256 | A concrete component with one priced and one unpriced source: as written the lookup returns the unpriced row; `BestSource` returns the priced one. |
| BomTables.ComponentLinesFromListed | bom_manager.py:228-262 | Every component line comes from an entry of the product that passes the do-not-populate filter and whose component exists. Every such entry yields its line. With the filter on, no line is marked do-not-populate. |
| BomTables.SubLinesFromListed | bom_manager.py:266-281 | Every sub-assembly line comes from an edge of the product whose child exists, and every such edge yields its line. |
| BomTables.ProductBom | bom_manager.py:225-283 | Each component line's component exists and its source is the cheapest one. Each sub-assembly line's child exists. With the filter on, no line is do-not-populate. Every entry that passes the filter and the join has its line, and so does every edge of the product whose child exists. Conversely every line comes from such an entry or edge of the product. There are no more lines than table rows. |
| BomTables.SubLinesDescend | bom_manager.py:305-308 | On a ranked graph every listed sub-assembly has a smaller rank than its parent, so the recursion ends. |
| BomTables.TwoCycleUnranked | bom_manager.py:1048-1050 | The sub-assembly form's only cycle check refuses a product inside itself. The two edges A→B and B→A pass that guard, and the resulting tables admit no rank. Both recursive walks over them go round the cycle until Python raises `RecursionError`. |
| CostRollup.UnpricedAddsNothing | bom_manager.py:293-302 | Removing a component whose cost is missing or zero changes neither the direct total nor the direct breakdown. |
| CostRollup.DirectItemsShape | bom_manager.py:293-302 | The direct breakdown has as many lines as there are priced components, each a part line, and its totals sum to the direct cost. |
| CostRollup.DirectItemsArePriced | bom_manager.py:294-302 | Each direct breakdown line is the line of a priced component: its part number and manufacturer, its quantity, its unit cost, and unit cost × quantity × multiplier as total. Every priced component has its line. |
| CostRollup.DirectCostAppend | bom_manager.py:293-296 | The direct total over two runs of lines is the sum of their totals. |
| CostRollup.DirectItemsAppend | bom_manager.py:293-302 | The direct breakdown over two runs of lines is the concatenation of their breakdowns. |
| CostRollup.RollupItem | bom_manager.py:305-321 | A rollup line has the sub-assembly label, the edge quantity, and as total the child's total under edge quantity × multiplier. Its unit cost times that product is the total when the product is positive; otherwise the unit cost is 0, and no division happens. |
| CostRollup.RollupItemsAt | bom_manager.py:305-321 | The j-th rollup line is the line of the j-th sub-assembly. |
| CostRollup.RollupItemsSum | bom_manager.py:305-321 | The totals of the rollup lines sum to the sub-assemblies' recursive totals. |
| CostRollup.BreakdownShape | bom_manager.py:293-324 | The breakdown is the priced direct lines first, in lookup order, then exactly one rollup line per sub-assembly, in lookup order. No child breakdown is spliced in. |
| CostRollup.BreakdownSumsToTotal | bom_manager.py:289-324 | The returned total equals the sum of the breakdown's totals. |
| CostRollup.DirectCostLinear | bom_manager.py:295 | Scaling the multiplier by k scales the direct total by k. |
| CostRollup.CostLinear | bom_manager.py:295-309 | Scaling the root multiplier by k scales the total by k. |
| CostRollup.SubsCostLinear | bom_manager.py:305-309 | Scaling the multiplier by k scales the sub-assemblies' total by k. |
| CostRollup.ZeroMultiplierCostsNothing | bom_manager.py:289-309 | Under a zero multiplier the total is 0. |
| CostRollup.ZeroQuantityRollup | bom_manager.py:311-321 | A sub-assembly of edge quantity 0 rolls up to total 0 and unit cost 0. |
| Flatten.FirstLine | bom_manager.py:338-350 | A new entry carries its encounter's key and its scaled quantity. |
| Flatten.Merge | bom_manager.py:334-350 | One merge step keeps the dictionary well formed. A present key gets the encounter's quantity added and keeps its other fields. A new key is inserted from the encounter and appended to the order. No other entry changes. |
| Flatten.MergeAll | bom_manager.py:334-354 | Merging a list of encounters keeps the dictionary well formed and only appends to the key order. |
| Flatten.Values | bom_manager.py:357 | The result lists each entry once, in insertion order. |
| Flatten.MergeAllAppend | bom_manager.py:330-354 | Merging two runs of encounters is merging the first, then the second. |
| Flatten.MergeAllKeys | bom_manager.py:335-350 | The keys after merging are the keys present before plus the keys met. |
| Flatten.MergeAllQty | bom_manager.py:336-337 | A key's quantity after merging is its previous quantity plus the sum of its encounters' scaled quantities: a repeat adds, never overwrites. |
| Flatten.MergeAllKeepsPresent | bom_manager.py:336-337 | An entry already present keeps its descriptive fields whatever is merged. |
| Flatten.FirstEncounterWins | bom_manager.py:338-350 | A new key's descriptive fields are those of its first encounter. |
| Flatten.ValuesKeysDistinct | bom_manager.py:335-357 | No two entries of the result share a (part number, manufacturer). |
| Flatten.FlattenedQuantity | bom_manager.py:326-357 | The flattened dictionary is well formed. It holds exactly the keys the walk meets, and each key's quantity is the sum over the walk. |
| Flatten.EncountersSum | bom_manager.py:330-354 | The walk's quantities for a key add up to the reference total of that key. |
| Flatten.FlattenedIsKeyTotal | bom_manager.py:326-357 | Each flattened quantity equals a reference total defined by recursion over the product tree, independent of the dictionary. |
| Flatten.EncountersLinear | bom_manager.py:345-354 | Scaling the root multiplier by c scales every line the walk meets by c, in the same order. |
| Flatten.FlattenKeysInvariant | bom_manager.py:326-357 | Scaling the root multiplier yields the same keys. |
| Flatten.KeyTotalLinear | bom_manager.py:345-354 | The reference total of a key is linear in the multiplier. |
| Flatten.FlattenLinear | bom_manager.py:326-357 | Scaling the root multiplier by c scales every flattened quantity by c. |
| SourceRules.FindSource | bom_manager.py:158-163 | The existence check returns the first row for (component, distributor), or none exactly when no row is for that pair. |
| SourceRules.UpsertWrites | bom_manager.py:165-188 | After the call, the pair's row holds the given part number, cost, minimum order, lead time, new timestamp and the returned id. |
| SourceRules.UpsertUpdatesInPlace | bom_manager.py:165-177 | An existing row is updated in place. It keeps its id and pair, that id is returned, and no row is added. |
| SourceRules.UpsertInserts | bom_manager.py:178-188 | Without a row for the pair, exactly one row is appended under the new id, which is returned. |
| SourceRules.UpsertLeavesOthers | bom_manager.py:165-177 | Rows of other pairs are unchanged. |
| SourceRules.UpsertKeepsOnePerPair | bom_manager.py:155-188 | A table with at most one row per (component, distributor) keeps that property. |
| SourceRules.UpsertTwice | bom_manager.py:155-188 | Repeating the same call at the same clock reading leaves the table as it was after the first call and returns the same id. A repeat at a later reading differs only in `last_updated`. |
| SourceRules.DedupOnePerPair | bom_manager.py:405-427 | After the cleanup no two rows share a pair. |
| SourceRules.DedupKeepsEveryPair | bom_manager.py:405-427 | Every remaining row was in the table, and every pair of the table keeps a row. With `DedupOnePerPair`, that is exactly one row per pair. |
| SourceRules.DedupKeepsLatest | bom_manager.py:416-427 | The row kept for a pair has the latest update time of its pair. |
| SourceRules.DedupNoDuplicates | bom_manager.py:405-411 | A table with no duplicates is left unchanged. |
| SourceRules.DedupIdempotent | bom_manager.py:402-430 | A second cleanup changes nothing. |
| BomDatabase.FlatTable.Add | bom_manager.py:334-350 | One pass of the component loop updates the dictionary to `Merge` of it with the line under the current multiplier. |
| BomDatabase.BomManager.constructor | bom_manager.py:19-24 | The manager holds the tables already in the database file, all empty for a new file. The next source id is above every stored one, as AUTOINCREMENT keeps it. |
| BomDatabase.BomManager.DirectCosts | bom_manager.py:289-302 | The component loop returns the direct total and the direct breakdown. |
| BomDatabase.BomManager.CalculateBomCost | bom_manager.py:285-324 | The method returns `CostTotal` and `Breakdown` of the tables it reads. |
| BomDatabase.BomManager.FlattenRecursive | bom_manager.py:330-354 | The shared dictionary becomes its old contents merged with every line the walk meets, in walk order. |
| BomDatabase.BomManager.GetFlattenedBom | bom_manager.py:326-357 | The method returns the values of `Flattened`, which is well formed. |
| BomDatabase.BomManager.AddComponentSource | bom_manager.py:152-188 | The source rows become `Upserted` of the old rows and the returned id is its id. The AUTOINCREMENT counter stays put on an update and advances by one on an insert, so an inserted id is fresh. One row per pair is preserved. Other tables are untouched. |
| BomDatabase.BomManager.CleanupDuplicateSources | bom_manager.py:402-430 | The source rows become `Deduplicated` of the old rows, with one row per pair. The count returned is the number of rows removed. |
| CostFlatten.CostIsWalkCost | bom_manager.py:285-324 | The cost total equals a definition without levels: the sum, over every component line the walk reaches at any depth, of its unit cost times its scaled quantity when it is priced. |
| CostFlatten.EncountersFromTables | bom_manager.py:228-262 | Every line the walk reaches carries its component's part number and manufacturer and that component's best source. |
| CostFlatten.MergeCost | bom_manager.py:334-350 | One insert-or-add step raises the priced-out total of the dictionary by exactly the cost of the line, provided the entries carry their key's price. |
| CostFlatten.FlattenedCostIsTotal | bom_manager.py:58 | With `UNIQUE(mfg_part_number, manufacturer)` on `components`, the flattened BOM priced at each line's unit cost × quantity totals what `calculate_bom_cost` returns for the same product and quantity. A line without a cost counts nothing, as in the cost. |

## Left out

- The `BOMManagerGUI` class, message boxes and debug output are not modelled.
- CSV import and export, and file I/O, are not modelled.
- Connection handling, schema creation and commits are not modelled. The tables
  are an in-memory snapshot (`Tables`).
- The `ORDER BY` clauses of the two queries in `get_product_bom` are taken as
  the order of the `entries` and `subAssemblies` sequences. The model does not
  sort them.
- Floating point is not modelled: quantities and costs are exact `real`s.
  `float()`/`int()` parsing and currency formatting are also left out.
- Timestamps from `datetime.now()` become a `now: nat` parameter. The model
  assumes their ISO text orders like the numbers.
- `lastrowid` is modelled as the counter `nextSourceId`.
- The dictionary key `f"{mpn}|{mfg}"` is modelled as a pair. A collision through
  a `|` inside a field is not modelled.
- The delete and id-lookup methods, and `add_product`, `add_component`,
  `add_bom_entry` and `add_sub_assembly`, are outside the resolver and are not
  modelled. `add_component` returns the existing id on a duplicate key, and
  `add_bom_entry` and `add_sub_assembly` also update the parent's
  `modified_date`.
- Cycles in the product graph: the source recurses without a guard. On a cycle
  it raises `RecursionError`. Neither `calculate_cost` nor `export_flattened_bom`
  catches it, since they catch only `ValueError`. Tk's callback handler then
  reports it and the window stays open. Such a cycle can be entered through the
  sub-assembly form (`BomTables.TwoCycleUnranked`). The model instead requires
  an acyclicity rank (`BomTables.Ranked`) over every edge of the tables, so it
  says nothing about cyclic tables. That includes tables whose cycle cannot be
  reached from the product being resolved, which the source still resolves.
- BomTables.LineOf: the resolver is given the corrected cheapest-source lookup
  `BestSource`, not the NULL-first `SqlFirstSource` (see Findings). So
  `CostTotal`, `Breakdown` and `Flattened` differ from the program for a
  component that has a source without a cost. There the program leaves the
  component's cost out, and takes the distributor fields from the NULL row.
- The `item` text of a breakdown line (`f"{mpn} ({mfg})"` and
  `f"[SUB-ASSEMBLY] {pn} - {desc}"`) is kept as the `CostRollup.Label` datatype of its
  parts, not formatted.
- BomTables.BestSource: the five sub-selects of the lookup each take their
  own `LIMIT 1`. With two sources of equal least cost they may take fields from
  different rows. The model picks one whole row, the earliest.
- SourceRules.FindSource: `fetchone` without `ORDER BY` is taken to return the
  earliest row.
- SourceRules.FindSource: the distributor is a `string`, so a NULL distributor
  is not modelled. In SQL `distributor = ?` never matches NULL, so for a NULL
  distributor the upsert always inserts and the cleanup's grouping deletes
  nothing. The application's own callers always pass a distributor.
- SourceRules.Deduplicated: the cleanup's `ORDER BY last_updated DESC` leaves
  ties unordered. The model keeps the earliest row among equally recent ones.
- BomDatabase.BomManager.CleanupDuplicateSources: the source deletes group by
  group. The model makes one pass over the rows and drops each row that another
  row of its pair beats. For non-NULL distributors the resulting table and the
  count are the same.
- BomDatabase.BomManager.Valid: only states that ids are below `nextSourceId`.
  Distinct ids, the primary-key constraint, are not tracked.

## Findings

| source | as written | input that shows it | evidently intended | confidence | as-written member | corrected member |
|---|---|---|---|---|---|---|
| bom_manager.py:242-256 | `ORDER BY unit_cost ASC LIMIT 1` on a nullable column. SQLite sorts NULL before every number, so a source without a cost wins. The component then counts as unpriced in `calculate_bom_cost`. | A component with a source priced 1.0 and another source with NULL cost (`NullCostSortsFirst`) | The priced source of lowest unit cost, which is what sorting by `unit_cost ASC` aims at. The program's own writers never store a NULL cost (they pass a cost only when one is given), so the input arises from a direct `add_component_source(..., unit_cost=None)` call or an edited database. | not executed; follows from SQLite's documented NULL ordering | BomTables.SqlFirstSource, BomTables.NullCostSortsFirst | BomTables.BestSource, BomTables.BestSourceIsCheapest |
