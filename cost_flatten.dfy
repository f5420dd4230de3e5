/** The two resolvers against each other. `calculate_bom_cost` adds up a cost
    level by level and `get_flattened_bom` merges every reached component into
    one line per part. Both walk the same lines: the cost total is the sum,
    over every component line the walk reaches, of its unit cost times its
    scaled quantity. When each (mfg part number, manufacturer) names one
    component, as the `UNIQUE` constraint on `components` makes it, pricing out
    the flattened lines gives the same total. */
module CostFlatten {
  import opened BomTables
  import opened CostRollup
  import opened Flatten

  // ---------------------------------------------------------------------------
  // The cost of the walk, line by line

  /** What one reached line costs: its unit cost times its scaled quantity
      when it passes the truth test of `calculate_bom_cost`, else nothing. */
  function EncounterCost(e: Encounter): real {
    if Priced(e.line) then UnitCost(e.line).value * e.quantity else 0.0
  }

  /** The cost of every line of the walk, with no rollup by level. */
  function WalkCost(es: seq<Encounter>): real {
    if |es| == 0 then 0.0 else WalkCost(es[..|es| - 1]) + EncounterCost(es[|es| - 1])
  }

  lemma {:induction false} WalkCostAppend(a: seq<Encounter>, b: seq<Encounter>)
    ensures WalkCost(a + b) == WalkCost(a) + WalkCost(b)
  {
    if |b| == 0 {
      assert a + b == a;
    } else {
      assert (a + b)[..|a + b| - 1] == a + b[..|b| - 1];
      WalkCostAppend(a, b[..|b| - 1]);
    }
  }

  lemma {:induction false} DirectWalkCost(lines: seq<ComponentLine>, m: real)
    ensures WalkCost(DirectEncounters(lines, m)) == DirectCost(lines, m)
  {
    if |lines| > 0 {
      var init, last := lines[..|lines| - 1], lines[|lines| - 1];
      var es := DirectEncounters(lines, m);
      DirectWalkCost(init, m);
      assert es[..|es| - 1] == DirectEncounters(init, m);
      if Priced(last) {
        var c := UnitCost(last).value;
        assert c * (last.quantity * m) == c * last.quantity * m;
      }
    }
  }

  /** The cost total of a product is the cost of every line its walk reaches:
      the recursion of `calculate_bom_cost` loses and adds nothing. */
  lemma {:induction false} CostIsWalkCost(db: Tables, rank: ProductId -> nat, productId: ProductId, m: real, includeDnp: bool)
    requires Ranked(db, rank)
    ensures CostTotal(db, rank, productId, m, includeDnp) == WalkCost(Encounters(db, rank, productId, m, includeDnp))
    decreases rank(productId), 1, 0
  {
    var lines, subs := ComponentLinesOf(db, productId, includeDnp), SubLinesOf(db, productId);
    SubLinesDescend(db, rank, productId);
    CostSplit(db, rank, productId, m, includeDnp);
    DirectWalkCost(lines, m);
    SubsWalkCost(db, rank, productId, subs, m, includeDnp);
    WalkCostAppend(DirectEncounters(lines, m), SubEncounters(db, rank, productId, subs, m, includeDnp));
  }

  lemma {:induction false} SubsWalkCost(db: Tables, rank: ProductId -> nat, parent: ProductId, subs: seq<SubAssemblyLine>, m: real, includeDnp: bool)
    requires Ranked(db, rank) && Below(rank, parent, subs)
    ensures SubsCost(db, rank, parent, subs, m, includeDnp) == WalkCost(SubEncounters(db, rank, parent, subs, m, includeDnp))
    decreases rank(parent), 0, |subs|
  {
    if |subs| > 0 {
      var init, last := subs[..|subs| - 1], subs[|subs| - 1];
      SubsWalkCost(db, rank, parent, init, m, includeDnp);
      CostIsWalkCost(db, rank, last.productId, ChildMultiplier(last, m), includeDnp);
      WalkCostAppend(SubEncounters(db, rank, parent, init, m, includeDnp),
                     Encounters(db, rank, last.productId, ChildMultiplier(last, m), includeDnp));
    }
  }

  // ---------------------------------------------------------------------------
  // Reached lines come from the tables

  function ComponentKey(c: Component): PartKey {
    PartKey(c.mfgPartNumber, c.manufacturer)
  }

  /** `UNIQUE(mfg_part_number, manufacturer)`: distinct components have
      distinct keys. */
  ghost predicate UniqueParts(db: Tables) {
    forall c1, c2 :: c1 in db.components && c2 in db.components && c1 != c2 ==>
      ComponentKey(db.components[c1]) != ComponentKey(db.components[c2])
  }

  /** The line carries its component's key and that component's best source. */
  ghost predicate FromTables(db: Tables, l: ComponentLine) {
    && l.componentId in db.components
    && KeyOf(l) == ComponentKey(db.components[l.componentId])
    && l.bestSource == BestSource(db.sources, l.componentId)
  }

  lemma {:induction false} DirectEncountersFrom(lines: seq<ComponentLine>, m: real)
    ensures forall e :: e in DirectEncounters(lines, m) ==> e.line in lines
  {
    if |lines| > 0 {
      var init := lines[..|lines| - 1];
      DirectEncountersFrom(init, m);
      assert forall l :: l in init ==> l in lines;
    }
  }

  lemma {:induction false} EncountersFromTables(db: Tables, rank: ProductId -> nat, productId: ProductId, m: real, includeDnp: bool)
    requires Ranked(db, rank)
    ensures forall e :: e in Encounters(db, rank, productId, m, includeDnp) ==> FromTables(db, e.line)
    decreases rank(productId), 1, 0
  {
    var lines, subs := ComponentLinesOf(db, productId, includeDnp), SubLinesOf(db, productId);
    SubLinesDescend(db, rank, productId);
    ComponentLinesFromListed(db, db.entries, productId, includeDnp);
    DirectEncountersFrom(lines, m);
    SubEncountersFromTables(db, rank, productId, subs, m, includeDnp);
    forall e | e in DirectEncounters(lines, m)
      ensures FromTables(db, e.line)
    {
      var entry :| entry in db.entries && EntryListed(db, productId, includeDnp, entry) && e.line == LineOf(db, entry);
    }
  }

  lemma {:induction false} SubEncountersFromTables(db: Tables, rank: ProductId -> nat, parent: ProductId, subs: seq<SubAssemblyLine>, m: real, includeDnp: bool)
    requires Ranked(db, rank) && Below(rank, parent, subs)
    ensures forall e :: e in SubEncounters(db, rank, parent, subs, m, includeDnp) ==> FromTables(db, e.line)
    decreases rank(parent), 0, |subs|
  {
    if |subs| > 0 {
      var init, last := subs[..|subs| - 1], subs[|subs| - 1];
      SubEncountersFromTables(db, rank, parent, init, m, includeDnp);
      EncountersFromTables(db, rank, last.productId, ChildMultiplier(last, m), includeDnp);
    }
  }

  /** The unit cost of a part key: that of the best source of the component
      with this key (unique under `UniqueParts`), or none. */
  ghost function KeyPrice(db: Tables, k: PartKey): Option<real> {
    if exists c :: c in db.components && ComponentKey(db.components[c]) == k then
      var c :| c in db.components && ComponentKey(db.components[c]) == k;
      var best := BestSource(db.sources, c);
      if best.Some? then best.value.unitCost else None
    else None
  }

  lemma {:induction false} KeyPriceOfLine(db: Tables, l: ComponentLine)
    requires UniqueParts(db) && FromTables(db, l)
    ensures UnitCost(l) == KeyPrice(db, KeyOf(l))
  {
    var k := KeyOf(l);
    assert l.componentId in db.components && ComponentKey(db.components[l.componentId]) == k;
    var c :| c in db.components && ComponentKey(db.components[c]) == k;
    assert c == l.componentId;
  }

  // ---------------------------------------------------------------------------
  // The cost of the flattened lines

  /** A flattened line priced out: quantity times unit cost, nothing when the
      line has no cost. */
  function LineCost(v: FlatLine): real {
    if v.unitCost.Some? then v.unitCost.value * v.quantity else 0.0
  }

  function ValuesCost(vs: seq<FlatLine>): real {
    if |vs| == 0 then 0.0 else ValuesCost(vs[..|vs| - 1]) + LineCost(vs[|vs| - 1])
  }

  /** The priced-out total of a dictionary's values. */
  ghost function FlatCost(f: Flat): real
    requires ValidFlat(f)
  {
    ValuesCost(Values(f))
  }

  lemma {:induction false} ValuesCostUpdate(vs: seq<FlatLine>, p: nat, x: FlatLine)
    requires p < |vs|
    ensures ValuesCost(vs[p := x]) == ValuesCost(vs) - LineCost(vs[p]) + LineCost(x)
  {
    var n := |vs| - 1;
    if p < n {
      assert vs[p := x][..n] == vs[..n][p := x];
      ValuesCostUpdate(vs[..n], p, x);
    } else {
      assert vs[p := x][..n] == vs[..n];
    }
  }

  /** Every entry of the dictionary carries the price of its key. */
  ghost predicate PricedByKey(db: Tables, f: Flat) {
    forall k :: k in f.lines ==> f.lines[k].unitCost == KeyPrice(db, k)
  }

  /** Changing the entry of the `p`-th key changes only the `p`-th value. */
  lemma {:induction false} ValuesAtOneKey(g: Flat, r: Flat, p: nat)
    requires ValidFlat(g) && ValidFlat(r) && r.order == g.order && p < |g.order|
    requires forall k :: k in g.lines && k != g.order[p] ==> r.lines[k] == g.lines[k]
    ensures Values(r) == Values(g)[p := r.lines[g.order[p]]]
  {
    forall i | 0 <= i < |g.order|
      ensures Values(r)[i] == Values(g)[p := r.lines[g.order[p]]][i]
    {
      if i != p {
        assert g.order[i] != g.order[p];
        assert g.order[i] in g.lines;
      }
    }
  }

  /** Inserting a new key appends its entry to the values. */
  lemma {:induction false} ValuesNewKey(g: Flat, r: Flat, k: PartKey)
    requires ValidFlat(g) && ValidFlat(r) && k !in g.lines && r.order == g.order + [k]
    requires forall j :: j in g.lines ==> r.lines[j] == g.lines[j]
    ensures Values(r) == Values(g) + [r.lines[k]]
  {
    forall i | 0 <= i < |g.order|
      ensures Values(r)[i] == Values(g)[i]
    {
      assert r.order[i] == g.order[i] && g.order[i] in g.lines;
    }
  }

  /** Adding to the quantity of a priced line adds its cost. */
  lemma {:induction false} LineCostAdd(v: FlatLine, w: FlatLine, e: Encounter)
    requires w.unitCost == v.unitCost == UnitCost(e.line) && w.quantity == v.quantity + e.quantity
    ensures LineCost(w) == LineCost(v) + EncounterCost(e)
  {
    if v.unitCost.Some? {
      var c := v.unitCost.value;
      assert c * (v.quantity + e.quantity) == c * v.quantity + c * e.quantity;
    }
  }

  /** One merge keeps every entry priced by its key. */
  lemma {:induction false} MergeKeepsPrices(db: Tables, g: Flat, e: Encounter)
    requires PricedByKey(db, g) && UnitCost(e.line) == KeyPrice(db, KeyOf(e.line))
    ensures PricedByKey(db, Merge(g, e))
  {
    var k := KeyOf(e.line);
    if k in g.lines {
      assert Descriptive(Merge(g, e).lines[k]) == Descriptive(g.lines[k]);
    }
  }

  /** Merging a key already present adds the encounter's cost. */
  lemma {:induction false} MergePresentCost(g: Flat, e: Encounter)
    requires ValidFlat(g) && KeyOf(e.line) in g.lines && g.lines[KeyOf(e.line)].unitCost == UnitCost(e.line)
    ensures ValidFlat(Merge(g, e))
    ensures FlatCost(Merge(g, e)) == FlatCost(g) + EncounterCost(e)
  {
    var k, r := KeyOf(e.line), Merge(g, e);
    var vs := Values(g);
    assert Descriptive(r.lines[k]) == Descriptive(g.lines[k]);
    var p :| 0 <= p < |g.order| && g.order[p] == k;
    ValuesAtOneKey(g, r, p);
    assert vs[p] == g.lines[k];
    ValuesCostUpdate(vs, p, r.lines[k]);
    LineCostAdd(g.lines[k], r.lines[k], e);
  }

  /** Merging a new key adds the encounter's cost. */
  lemma {:induction false} MergeNewCost(g: Flat, e: Encounter)
    requires ValidFlat(g) && KeyOf(e.line) !in g.lines
    ensures ValidFlat(Merge(g, e))
    ensures FlatCost(Merge(g, e)) == FlatCost(g) + EncounterCost(e)
  {
    var k, r := KeyOf(e.line), Merge(g, e);
    var vs := Values(g);
    ValuesNewKey(g, r, k);
    assert (vs + [r.lines[k]])[..|vs|] == vs;
    LineCostFirst(e);
  }

  /** One merge adds the encounter's cost to the priced-out total. */
  lemma {:induction false} MergeCost(db: Tables, g: Flat, e: Encounter)
    requires ValidFlat(g) && PricedByKey(db, g) && UnitCost(e.line) == KeyPrice(db, KeyOf(e.line))
    ensures ValidFlat(Merge(g, e)) && PricedByKey(db, Merge(g, e))
    ensures FlatCost(Merge(g, e)) == FlatCost(g) + EncounterCost(e)
  {
    MergeKeepsPrices(db, g, e);
    if KeyOf(e.line) in g.lines {
      MergePresentCost(g, e);
    } else {
      MergeNewCost(g, e);
    }
  }

  /** A key's first line costs what its encounter costs. */
  lemma {:induction false} LineCostFirst(e: Encounter)
    ensures LineCost(FirstLine(e)) == EncounterCost(e)
  {
    if UnitCost(e.line).Some? && UnitCost(e.line).value == 0.0 {
      assert 0.0 * e.quantity == 0.0;
    }
  }

  lemma {:induction false} MergeAllCost(db: Tables, f: Flat, es: seq<Encounter>)
    requires ValidFlat(f) && PricedByKey(db, f)
    requires forall e :: e in es ==> UnitCost(e.line) == KeyPrice(db, KeyOf(e.line))
    ensures ValidFlat(MergeAll(f, es)) && PricedByKey(db, MergeAll(f, es))
    ensures FlatCost(MergeAll(f, es)) == FlatCost(f) + WalkCost(es)
  {
    if |es| > 0 {
      var init, last := es[..|es| - 1], es[|es| - 1];
      assert forall e :: e in init ==> e in es;
      MergeAllCost(db, f, init);
      MergeCost(db, MergeAll(f, init), last);
    }
  }

  /** With one component per part key, the flattened BOM priced out at each
      line's unit cost (a line without a cost counting nothing) totals what
      `calculate_bom_cost` returns. */
  lemma {:induction false} FlattenedCostIsTotal(db: Tables, rank: ProductId -> nat, productId: ProductId, m: real, includeDnp: bool)
    requires Ranked(db, rank) && UniqueParts(db)
    ensures ValidFlat(Flattened(db, rank, productId, m, includeDnp))
    ensures ValuesCost(Values(Flattened(db, rank, productId, m, includeDnp))) == CostTotal(db, rank, productId, m, includeDnp)
  {
    var es := Encounters(db, rank, productId, m, includeDnp);
    EncountersFromTables(db, rank, productId, m, includeDnp);
    forall e | e in es
      ensures UnitCost(e.line) == KeyPrice(db, KeyOf(e.line))
    {
      KeyPriceOfLine(db, e.line);
    }
    assert Values(EMPTY) == [];
    MergeAllCost(db, EMPTY, es);
    CostIsWalkCost(db, rank, productId, m, includeDnp);
  }
}
