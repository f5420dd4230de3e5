/** The manager object over one open database. Its tables are fields; the
    resolver methods walk them step by step the way `calculate_bom_cost` and
    `get_flattened_bom` do, and the two source operations replace the
    `component_sources` rows. Each method is proved against the functions of
    `CostRollup`, `Flatten` and `SourceRules`. */
module BomDatabase {
  import opened BomTables
  import opened CostRollup
  import opened Flatten
  import opened SourceRules

  /** The dictionary `flattened` that the nested `flatten_recursive` fills. */
  class FlatTable {
    var flattened: Flat

    constructor ()
      ensures flattened == EMPTY
    {
      flattened := EMPTY;
    }

    /** One pass of the first loop of `flatten_recursive`: add to the entry of
        the line's key, or insert a new entry for it. */
    method Add(l: ComponentLine, qty: real)
      modifies this
      ensures flattened == Merge(old(flattened), EncounterOf(l, qty))
    {
      var key := KeyOf(l);
      var e := EncounterOf(l, qty);
      if key in flattened.lines {
        var entry := flattened.lines[key];
        flattened := Flat(flattened.lines[key := entry.(quantity := entry.quantity + e.quantity)], flattened.order);
      } else {
        flattened := Flat(flattened.lines[key := FirstLine(e)], flattened.order + [key]);
      }
    }
  }

  class BomManager {
    var products: map<ProductId, Product>
    var components: map<ComponentId, Component>
    var sources: seq<Source>
    var entries: seq<BomEntry>
    var subAssemblies: seq<SubAssemblyEdge>
    /** The id the next inserted source row receives. */
    var nextSourceId: SourceId

    /** The tables as the resolver's functions see them. */
    function Snapshot(): Tables
      reads this
    {
      Tables(products, components, sources, entries, subAssemblies)
    }

    /** Every source row has an id below the next one handed out. */
    ghost predicate Valid()
      reads this
    {
      forall s :: s in sources ==> s.id < nextSourceId
    }

    /** A manager over the database file at hand: the tables it already holds
        (all empty for a new file), and the next id that AUTOINCREMENT hands
        out, which is above every stored source id. */
    constructor (db: Tables, nextId: SourceId)
      requires forall s :: s in db.sources ==> s.id < nextId
      ensures Valid()
      ensures Snapshot() == db && nextSourceId == nextId
    {
      products, components, sources, entries, subAssemblies := db.products, db.components, db.sources, db.entries, db.subAssemblies;
      nextSourceId := nextId;
    }

    /** The first loop of `calculate_bom_cost`: every component with a cost
        adds `unit cost * quantity * multiplier` to the total and one line to
        the breakdown; a component without one adds nothing. */
    method DirectCosts(comps: seq<ComponentLine>, quantity: real) returns (totalCost: real, componentCosts: seq<LineItem>)
      ensures totalCost == DirectCost(comps, quantity)
      ensures componentCosts == DirectItems(comps, quantity)
    {
      totalCost, componentCosts := 0.0, [];
      for i := 0 to |comps|
        invariant totalCost == DirectCost(comps[..i], quantity)
        invariant componentCosts == DirectItems(comps[..i], quantity)
      {
        var comp := comps[i];
        DirectStep(comps, i, quantity);
        if UnitCost(comp).Some? && UnitCost(comp).value != 0.0 {
          var compTotal := UnitCost(comp).value * comp.quantity * quantity;
          totalCost := totalCost + compTotal;
          componentCosts := componentCosts + [LineItem(PartLabel(comp.mfgPartNumber, comp.manufacturer), comp.quantity, UnitCost(comp).value, compTotal)];
        }
      }
      assert comps[..|comps|] == comps;
    }

    /** `calculate_bom_cost(productId, quantity, includeDnp)`: the running total
        over the priced direct components, then one recursive call per
        sub-assembly, each adding its total and one rollup line. */
    method CalculateBomCost(ghost rank: ProductId -> nat, productId: ProductId, quantity: real, includeDnp: bool)
      returns (totalCost: real, componentCosts: seq<LineItem>)
      requires Ranked(Snapshot(), rank)
      ensures totalCost == CostTotal(Snapshot(), rank, productId, quantity, includeDnp)
      ensures componentCosts == Breakdown(Snapshot(), rank, productId, quantity, includeDnp)
      decreases rank(productId)
    {
      var db := Snapshot();
      // the two queries of `get_product_bom`
      var comps, subs := ComponentLinesOf(db, productId, includeDnp), SubLinesOf(db, productId);
      totalCost, componentCosts := DirectCosts(comps, quantity);
      SubLinesDescend(db, rank, productId);
      ghost var direct, directItems := totalCost, componentCosts;
      for j := 0 to |subs|
        invariant Below(rank, productId, subs[..j])
        invariant totalCost == direct + SubsCost(db, rank, productId, subs[..j], quantity, includeDnp)
        invariant componentCosts == directItems + RollupItems(db, rank, subs[..j], quantity, includeDnp)
      {
        var sub := subs[j];
        var subQty := ChildMultiplier(sub, quantity);
        var subCost, subBreakdown := CalculateBomCost(rank, sub.productId, subQty, includeDnp);
        totalCost := totalCost + subCost;
        var unitCost := if subQty > 0.0 then subCost / subQty else 0.0;
        var line := LineItem(SubAssemblyLabel(sub.partNumber, sub.description), sub.quantity, unitCost, subCost);
        RollupStep(db, rank, productId, subs, j, quantity, includeDnp, subCost, unitCost);
        ItemsSnoc(directItems, RollupItems(db, rank, subs[..j], quantity, includeDnp), line);
        componentCosts := componentCosts + [line];
      }
      assert subs[..|subs|] == subs;
    }

    /** `get_flattened_bom(productId, quantity, includeDnp)`: the values of the
        dictionary that `flatten_recursive` fills, in insertion order. */
    method GetFlattenedBom(ghost rank: ProductId -> nat, productId: ProductId, quantity: real, includeDnp: bool)
      returns (values: seq<FlatLine>)
      requires Ranked(Snapshot(), rank)
      ensures ValidFlat(Flattened(Snapshot(), rank, productId, quantity, includeDnp))
      ensures values == Values(Flattened(Snapshot(), rank, productId, quantity, includeDnp))
    {
      var table := new FlatTable();
      FlattenRecursive(rank, table, productId, quantity, includeDnp);
      values := Values(table.flattened);
    }

    /** `flatten_recursive(prodId, qty)`: merge the direct components under
        `qty`, then walk each sub-assembly under `edge quantity * qty`. */
    method FlattenRecursive(ghost rank: ProductId -> nat, table: FlatTable, prodId: ProductId, qty: real, includeDnp: bool)
      requires Ranked(Snapshot(), rank)
      modifies table
      ensures table.flattened == MergeAll(old(table.flattened), Encounters(Snapshot(), rank, prodId, qty, includeDnp))
      decreases rank(prodId)
    {
      var db := Snapshot();
      // the two queries of `get_product_bom`
      var comps, subs := ComponentLinesOf(db, prodId, includeDnp), SubLinesOf(db, prodId);
      ghost var start := table.flattened;
      for i := 0 to |comps|
        invariant table.flattened == MergeAll(start, DirectEncounters(comps[..i], qty))
      {
        DirectMergeStep(start, comps, i, qty);
        table.Add(comps[i], qty);
      }
      assert comps[..|comps|] == comps;

      SubLinesDescend(db, rank, prodId);
      ghost var mid := table.flattened;
      for j := 0 to |subs|
        invariant Below(rank, prodId, subs[..j])
        invariant table.flattened == MergeAll(mid, SubEncounters(db, rank, prodId, subs[..j], qty, includeDnp))
      {
        SubMergeStep(mid, db, rank, prodId, subs, j, qty, includeDnp);
        FlattenRecursive(rank, table, subs[j].productId, ChildMultiplier(subs[j], qty), includeDnp);
      }
      assert subs[..|subs|] == subs;
      MergeAllAppend(start, DirectEncounters(comps, qty), SubEncounters(db, rank, prodId, subs, qty, includeDnp));
    }

    /** `add_component_source`: update the pair's row in place and return its
        id, or insert a new row under a fresh id. `now` is the clock reading. */
    method AddComponentSource(componentId: ComponentId, distributor: string, distributorPartNumber: string,
                              unitCost: Option<real>, minimumOrderQty: int, leadTimeDays: Option<int>, now: nat)
      returns (sourceId: SourceId)
      requires Valid()
      modifies this`sources, this`nextSourceId
      ensures Valid()
      ensures var u := Upserted(old(sources), componentId, distributor,
                                Offer(distributorPartNumber, unitCost, minimumOrderQty, leadTimeDays), now, old(nextSourceId));
        sources == u.sources && sourceId == u.id
      ensures nextSourceId == if FindSource(old(sources), componentId, distributor).Some? then old(nextSourceId) else old(nextSourceId) + 1
      ensures FindSource(old(sources), componentId, distributor).None? ==> sourceId !in set s | s in old(sources) :: s.id
      ensures old(OnePerPair(sources)) ==> OnePerPair(sources)
    {
      var offer := Offer(distributorPartNumber, unitCost, minimumOrderQty, leadTimeDays);
      assert OnePerPair(sources) ==> OnePerPair(Upserted(sources, componentId, distributor, offer, now, nextSourceId).sources) by {
        if OnePerPair(sources) {
          UpsertKeepsOnePerPair(sources, componentId, distributor, offer, now, nextSourceId);
        }
      }
      var existing := FindSource(sources, componentId, distributor);
      if existing.Some? {
        var i := existing.value;
        sourceId := sources[i].id;
        sources := sources[i := Updated(sources[i], offer, now)];
        assert forall k :: 0 <= k < |sources| ==> sources[k].id == old(sources)[k].id;
      } else {
        sourceId := nextSourceId;
        sources := sources + [Source(sourceId, componentId, distributor, distributorPartNumber, unitCost,
                                     minimumOrderQty, leadTimeDays, now)];
        nextSourceId := nextSourceId + 1;
      }
    }

    /** `cleanup_duplicate_sources`: delete every row that another row of its
        pair wins over, and count the deletions. */
    method CleanupDuplicateSources() returns (removedCount: nat)
      modifies this`sources
      ensures sources == Deduplicated(old(sources))
      ensures removedCount == |old(sources)| - |sources|
      ensures OnePerPair(sources)
      ensures old(Valid()) ==> Valid()
    {
      var rows := sources;
      var kept: seq<Source> := [];
      removedCount := 0;
      for i := 0 to |rows|
        invariant kept == KeptPrefix(rows, i)
        invariant removedCount == i - |kept|
      {
        if IsKept(rows, i) {
          kept := kept + [rows[i]];
        } else {
          removedCount := removedCount + 1;
        }
      }
      sources := kept;
      DedupOnePerPair(rows);
      DedupKeepsEveryPair(rows);
    }
  }
}
