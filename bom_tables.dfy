/** The tables of the BOM database, held as an immutable snapshot, and the
    lookup that turns them into one product's direct component lines and
    sub-assembly lines (the two SELECTs of `get_product_bom`). */
module BomTables {

  type ProductId = nat
  type ComponentId = nat
  type SourceId = nat

  datatype Option<+T> = None | Some(value: T)

  /** A row of `products`; its timestamps are not modelled. */
  datatype Product = Product(partNumber: string, description: string, revision: string, notes: string)

  /** A row of `components`; (mfgPartNumber, manufacturer) is declared UNIQUE. */
  datatype Component = Component(
    mfgPartNumber: string,
    manufacturer: string,
    description: string,
    category: string,
    unitOfMeasure: string,
    isAssembly: bool,
    notes: string)

  /** A row of `component_sources`. `unitCost` is a nullable REAL; `lastUpdated`
      stands for the ISO timestamp and is only ever compared. */
  datatype Source = Source(
    id: SourceId,
    componentId: ComponentId,
    distributor: string,
    distributorPartNumber: string,
    unitCost: Option<real>,
    minimumOrderQty: int,
    leadTimeDays: Option<int>,
    lastUpdated: nat)

  /** A row of `bom_entries`: a product uses a component. */
  datatype BomEntry = BomEntry(
    id: nat,
    productId: ProductId,
    componentId: ComponentId,
    quantity: real,
    referenceDesignators: string,
    doNotPopulate: bool,
    notes: string)

  /** A row of `sub_assemblies`: a parent product uses a child product. */
  datatype SubAssemblyEdge = SubAssemblyEdge(
    id: nat,
    parentId: ProductId,
    childId: ProductId,
    quantity: real,
    referenceDesignators: string,
    notes: string)

  /** One snapshot of every table the resolver reads. The row sequences are
      taken to be in the order the queries' ORDER BY clauses produce. */
  datatype Tables = Tables(
    products: map<ProductId, Product>,
    components: map<ComponentId, Component>,
    sources: seq<Source>,
    entries: seq<BomEntry>,
    subAssemblies: seq<SubAssemblyEdge>)

  /** A result row of the first query: the entry joined with its component and
      the component's cheapest source. */
  datatype ComponentLine = ComponentLine(
    componentId: ComponentId,
    entryId: nat,
    mfgPartNumber: string,
    manufacturer: string,
    description: string,
    category: string,
    unitOfMeasure: string,
    quantity: real,
    referenceDesignators: string,
    doNotPopulate: bool,
    notes: string,
    bestSource: Option<Source>)

  /** A result row of the second query: the edge joined with its child product. */
  datatype SubAssemblyLine = SubAssemblyLine(
    subAssemblyId: nat,
    partNumber: string,
    description: string,
    quantity: real,
    referenceDesignators: string,
    notes: string,
    productId: ProductId)

  // ---------------------------------------------------------------------------
  // Cheapest source

  predicate PricedSourceOf(s: Source, c: ComponentId) {
    s.componentId == c && s.unitCost.Some?
  }

  /** The cheapest source of a component, as the `ORDER BY unit_cost ASC
      LIMIT 1` sub-selects are meant to find it: a priced source of least cost
      (the earliest row on a tie), or none when no source of it is priced.
      The sub-selects as written sort NULL first; see `SqlFirstSource`. */
  function BestSource(sources: seq<Source>, c: ComponentId): (r: Option<Source>)
    ensures r.Some? ==> PricedSourceOf(r.value, c)
  {
    if |sources| == 0 then None
    else
      var init, last := sources[..|sources| - 1], sources[|sources| - 1];
      var best := BestSource(init, c);
      if PricedSourceOf(last, c) && (best.None? || last.unitCost.value < best.value.unitCost.value)
      then Some(last)
      else best
  }

  /** The chosen source is a priced source of the component with the least
      cost, and there is none exactly when no source of it is priced. */
  lemma {:induction false} BestSourceIsCheapest(sources: seq<Source>, c: ComponentId)
    ensures BestSource(sources, c).None? <==> forall s :: s in sources ==> !PricedSourceOf(s, c)
    ensures BestSource(sources, c).Some? ==> BestSource(sources, c).value in sources
    ensures BestSource(sources, c).Some? ==>
      forall s :: s in sources && PricedSourceOf(s, c) ==> BestSource(sources, c).value.unitCost.value <= s.unitCost.value
  {
    if |sources| > 0 {
      var init, last := sources[..|sources| - 1], sources[|sources| - 1];
      assert sources == init + [last];
      BestSourceIsCheapest(init, c);
    }
  }

  /** The order of `ORDER BY unit_cost ASC` as SQLite applies it: NULL sorts
      before every number. */
  predicate SortsBefore(a: Option<real>, b: Option<real>) {
    (a.None? && b.Some?) || (a.Some? && b.Some? && a.value < b.value)
  }

  /** The row the sub-selects return as written: the first source of the
      component in that order (the earliest row on a tie), priced or not. */
  function SqlFirstSource(sources: seq<Source>, c: ComponentId): (r: Option<Source>)
    ensures r.Some? ==> r.value.componentId == c && r.value in sources
    ensures r.None? <==> forall s :: s in sources ==> s.componentId != c
  {
    if |sources| == 0 then None
    else
      var init, last := sources[..|sources| - 1], sources[|sources| - 1];
      var first := SqlFirstSource(init, c);
      assert sources == init + [last];
      if last.componentId == c && (first.None? || SortsBefore(last.unitCost, first.value.unitCost))
      then Some(last)
      else first
  }

  /** As written, a component with any unpriced source gets an unpriced one. */
  lemma {:induction false} SqlFirstPrefersUnpriced(sources: seq<Source>, c: ComponentId)
    requires exists s :: s in sources && s.componentId == c && s.unitCost.None?
    ensures SqlFirstSource(sources, c).Some? && SqlFirstSource(sources, c).value.unitCost.None?
  {
    var init, last := sources[..|sources| - 1], sources[|sources| - 1];
    assert sources == init + [last];
    if exists s :: s in init && s.componentId == c && s.unitCost.None? {
      SqlFirstPrefersUnpriced(init, c);
    }
  }

  /** When every source of the component is priced, the query as written and
      `BestSource` pick the same row: the two differ only on NULL costs. */
  lemma {:induction false} SqlFirstAgreesWhenPriced(sources: seq<Source>, c: ComponentId)
    requires forall s :: s in sources && s.componentId == c ==> s.unitCost.Some?
    ensures SqlFirstSource(sources, c) == BestSource(sources, c)
  {
    if |sources| > 0 {
      var init, last := sources[..|sources| - 1], sources[|sources| - 1];
      assert sources == init + [last];
      SqlFirstAgreesWhenPriced(init, c);
    }
  }

  /** A component with a source priced at 1.0 and a later one without a cost:
      as written the lookup returns the unpriced row, so the component counts
      as having no cost; `BestSource` returns the priced one. */
  lemma {:induction false} NullCostSortsFirst()
    ensures var a := Source(1, 7, "Mouser", "M-1", None, 1, None, 0);
      var b := Source(2, 7, "Digi-Key", "D-1", Some(1.0), 1, None, 0);
      && SqlFirstSource([b, a], 7) == Some(a)
      && BestSource([b, a], 7) == Some(b)
  {
    var a := Source(1, 7, "Mouser", "M-1", None, 1, None, 0);
    var b := Source(2, 7, "Digi-Key", "D-1", Some(1.0), 1, None, 0);
    assert [b, a][..1] == [b];
    assert [b][..0] == [];
    assert SqlFirstSource([b], 7) == Some(b);
    assert BestSource([b], 7) == Some(b);
  }

  // ---------------------------------------------------------------------------
  // Direct component lines

  /** The filter of the first query: the entry belongs to the product, passes
      the do-not-populate filter, and its component exists (inner join). */
  predicate EntryListed(db: Tables, productId: ProductId, includeDnp: bool, e: BomEntry) {
    e.productId == productId && (includeDnp || !e.doNotPopulate) && e.componentId in db.components
  }

  function LineOf(db: Tables, e: BomEntry): ComponentLine
    requires e.componentId in db.components
  {
    var c := db.components[e.componentId];
    ComponentLine(e.componentId, e.id, c.mfgPartNumber, c.manufacturer, c.description, c.category,
                  c.unitOfMeasure, e.quantity, e.referenceDesignators, e.doNotPopulate, e.notes,
                  BestSource(db.sources, e.componentId))
  }

  function ComponentLinesFrom(db: Tables, entries: seq<BomEntry>, productId: ProductId, includeDnp: bool): (r: seq<ComponentLine>)
    ensures |r| <= |entries|
  {
    if |entries| == 0 then []
    else
      var init, last := entries[..|entries| - 1], entries[|entries| - 1];
      assert entries == init + [last];
      ComponentLinesFrom(db, init, productId, includeDnp)
        + (if EntryListed(db, productId, includeDnp, last) then [LineOf(db, last)] else [])
  }

  /** The lines are exactly those of the listed entries: nothing else, and
      nothing listed is dropped; without `includeDnp` no line is DNP. */
  lemma {:induction false} ComponentLinesFromListed(db: Tables, entries: seq<BomEntry>, productId: ProductId, includeDnp: bool)
    ensures forall l :: l in ComponentLinesFrom(db, entries, productId, includeDnp) ==>
      exists e :: e in entries && EntryListed(db, productId, includeDnp, e) && l == LineOf(db, e)
    ensures forall e :: e in entries && EntryListed(db, productId, includeDnp, e) ==>
      LineOf(db, e) in ComponentLinesFrom(db, entries, productId, includeDnp)
    ensures !includeDnp ==> forall l :: l in ComponentLinesFrom(db, entries, productId, includeDnp) ==> !l.doNotPopulate
  {
    if |entries| > 0 {
      var init, last := entries[..|entries| - 1], entries[|entries| - 1];
      assert entries == init + [last];
      ComponentLinesFromListed(db, init, productId, includeDnp);
      var r, prev := ComponentLinesFrom(db, entries, productId, includeDnp), ComponentLinesFrom(db, init, productId, includeDnp);
      var tail := if EntryListed(db, productId, includeDnp, last) then [LineOf(db, last)] else [];
      assert r == prev + tail;
      forall l | l in r
        ensures exists e :: e in entries && EntryListed(db, productId, includeDnp, e) && l == LineOf(db, e)
      {
        if l in prev {
          var e :| e in init && EntryListed(db, productId, includeDnp, e) && l == LineOf(db, e);
          assert e in entries;
        } else {
          assert last in entries;
        }
      }
    }
  }

  /** The direct component lines of a product, in table order. */
  function ComponentLinesOf(db: Tables, productId: ProductId, includeDnp: bool): seq<ComponentLine> {
    ComponentLinesFrom(db, db.entries, productId, includeDnp)
  }

  // ---------------------------------------------------------------------------
  // Sub-assembly lines

  /** The filter of the second query: the edge leaves the product and its child
      exists (inner join). */
  predicate EdgeListed(db: Tables, productId: ProductId, s: SubAssemblyEdge) {
    s.parentId == productId && s.childId in db.products
  }

  function SubLineOf(db: Tables, s: SubAssemblyEdge): SubAssemblyLine
    requires s.childId in db.products
  {
    var p := db.products[s.childId];
    SubAssemblyLine(s.id, p.partNumber, p.description, s.quantity, s.referenceDesignators, s.notes, s.childId)
  }

  function SubLinesFrom(db: Tables, edges: seq<SubAssemblyEdge>, productId: ProductId): (r: seq<SubAssemblyLine>)
    ensures |r| <= |edges|
  {
    if |edges| == 0 then []
    else
      var init, last := edges[..|edges| - 1], edges[|edges| - 1];
      assert edges == init + [last];
      SubLinesFrom(db, init, productId)
        + (if EdgeListed(db, productId, last) then [SubLineOf(db, last)] else [])
  }

  /** The lines are exactly those of the listed edges. */
  lemma {:induction false} SubLinesFromListed(db: Tables, edges: seq<SubAssemblyEdge>, productId: ProductId)
    ensures forall l :: l in SubLinesFrom(db, edges, productId) ==>
      exists s :: s in edges && EdgeListed(db, productId, s) && l == SubLineOf(db, s)
    ensures forall s :: s in edges && EdgeListed(db, productId, s) ==> SubLineOf(db, s) in SubLinesFrom(db, edges, productId)
  {
    if |edges| > 0 {
      var init, last := edges[..|edges| - 1], edges[|edges| - 1];
      assert edges == init + [last];
      SubLinesFromListed(db, init, productId);
      var r, prev := SubLinesFrom(db, edges, productId), SubLinesFrom(db, init, productId);
      var tail := if EdgeListed(db, productId, last) then [SubLineOf(db, last)] else [];
      assert r == prev + tail;
      forall l | l in r
        ensures exists s :: s in edges && EdgeListed(db, productId, s) && l == SubLineOf(db, s)
      {
        if l !in prev {
          assert last in edges;
        }
      }
    }
  }

  /** The sub-assembly lines of a product, in table order. */
  function SubLinesOf(db: Tables, productId: ProductId): seq<SubAssemblyLine> {
    SubLinesFrom(db, db.subAssemblies, productId)
  }

  /** The lookup `get_product_bom` performs: both result sets together. */
  function ProductBom(db: Tables, productId: ProductId, includeDnp: bool): (r: (seq<ComponentLine>, seq<SubAssemblyLine>))
    ensures |r.0| <= |db.entries| && |r.1| <= |db.subAssemblies|
    ensures forall l :: l in r.0 ==> l.componentId in db.components && l.bestSource == BestSource(db.sources, l.componentId)
    ensures !includeDnp ==> forall l :: l in r.0 ==> !l.doNotPopulate
    ensures forall l :: l in r.1 ==> l.productId in db.products
    ensures forall l :: l in r.0 ==> exists e :: e in db.entries && EntryListed(db, productId, includeDnp, e) && l == LineOf(db, e)
    ensures forall l :: l in r.1 ==> exists s :: s in db.subAssemblies && EdgeListed(db, productId, s) && l == SubLineOf(db, s)
    ensures forall e :: e in db.entries && EntryListed(db, productId, includeDnp, e) ==> LineOf(db, e) in r.0
    ensures forall s :: s in db.subAssemblies && EdgeListed(db, productId, s) ==> SubLineOf(db, s) in r.1
  {
    ComponentLinesFromListed(db, db.entries, productId, includeDnp);
    SubLinesFromListed(db, db.subAssemblies, productId);
    (ComponentLinesOf(db, productId, includeDnp), SubLinesOf(db, productId))
  }

  /** The multiplier a sub-assembly is resolved with, by both recursive walks:
      its edge quantity times the parent's multiplier. */
  function ChildMultiplier(s: SubAssemblyLine, m: real): real {
    s.quantity * m
  }

  /** Scaling the parent's multiplier by `k` scales the child's by `k`. */
  lemma {:induction false} ChildMultiplierScales(s: SubAssemblyLine, m: real, k: real, km: real)
    requires km == k * m
    ensures ChildMultiplier(s, km) == k * ChildMultiplier(s, m)
  {
  }

  /** `kx` is `k` times `x`: the relation every linearity lemma states
      between a quantity under multiplier `m` and under `k * m`. */
  predicate ScaledBy(k: real, x: real, kx: real) {
    kx == k * x
  }

  /** The step of every linearity induction: if two parts scale by `k`, so
      does their sum. */
  lemma {:induction false} SumScales(k: real, x: real, y: real, z: real, kx: real, ky: real, kz: real)
    requires z == x + y && kz == kx + ky && ScaledBy(k, x, kx) && ScaledBy(k, y, ky)
    ensures ScaledBy(k, z, kz)
  {
  }

  // ---------------------------------------------------------------------------
  // Acyclicity

  /** A rank that strictly decreases along every sub-assembly edge that the
      lookup follows: the product graph has no cycle. The source never checks
      this; its recursion only terminates on such graphs. */
  ghost predicate Ranked(db: Tables, rank: ProductId -> nat) {
    forall s :: s in db.subAssemblies && s.childId in db.products ==> rank(s.childId) < rank(s.parentId)
  }

  /** The sub-assembly form's only cycle check refuses a product inside itself, so "A
      contains B" and "B contains A" are both accepted. No rank exists for
      those tables: the recursion over them never reaches a product without
      sub-assemblies. */
  lemma {:induction false} TwoCycleUnranked(rank: ProductId -> nat)
    ensures var a, b := Product("A", "", "", ""), Product("B", "", "", "");
      var db := Tables(map[1 := a, 2 := b], map[], [], [],
                       [SubAssemblyEdge(1, 1, 2, 1.0, "", ""), SubAssemblyEdge(2, 2, 1, 1.0, "", "")]);
      !Ranked(db, rank)
  {
    var a, b := Product("A", "", "", ""), Product("B", "", "", "");
    var db := Tables(map[1 := a, 2 := b], map[], [], [],
                     [SubAssemblyEdge(1, 1, 2, 1.0, "", ""), SubAssemblyEdge(2, 2, 1, 1.0, "", "")]);
    assert db.subAssemblies[0] in db.subAssemblies && db.subAssemblies[0].childId in db.products;
    assert db.subAssemblies[1] in db.subAssemblies && db.subAssemblies[1].childId in db.products;
  }

  /** Every listed sub-assembly of `parent` has a smaller rank than `parent`. */
  ghost predicate Below(rank: ProductId -> nat, parent: ProductId, subs: seq<SubAssemblyLine>) {
    forall k :: 0 <= k < |subs| ==> rank(subs[k].productId) < rank(parent)
  }

  lemma {:induction false} BelowPrefix(rank: ProductId -> nat, parent: ProductId, subs: seq<SubAssemblyLine>, j: nat)
    requires Below(rank, parent, subs) && j <= |subs|
    ensures Below(rank, parent, subs[..j])
  {
    forall k | 0 <= k < j
      ensures rank(subs[..j][k].productId) < rank(parent)
    {
      assert subs[..j][k] == subs[k];
    }
  }

  lemma {:induction false} SubLinesDescend(db: Tables, rank: ProductId -> nat, productId: ProductId)
    requires Ranked(db, rank)
    ensures Below(rank, productId, SubLinesOf(db, productId))
  {
    var subs := SubLinesOf(db, productId);
    SubLinesFromListed(db, db.subAssemblies, productId);
    forall k | 0 <= k < |subs|
      ensures rank(subs[k].productId) < rank(productId)
    {
      assert subs[k] in subs;
      var s :| s in db.subAssemblies && EdgeListed(db, productId, s) && subs[k] == SubLineOf(db, s);
    }
  }
}
