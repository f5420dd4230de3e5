/** The cost rollup of `calculate_bom_cost`, as functions over a snapshot:
    the running total and the ordered breakdown of one product, with every
    sub-assembly resolved recursively under the multiplier
    `edge quantity * parent multiplier`.

    Linearity in the multiplier is stated as `ScaledBy(k, x, kx)`, that is
    `kx == k * x`, with the scaled multiplier passed as a named argument
    `km == k * m`. */
module CostRollup {
  import opened BomTables

  /** The `item` text of a breakdown line, kept as its parts. */
  datatype Label =
    | PartLabel(mfgPartNumber: string, manufacturer: string)
    | SubAssemblyLabel(partNumber: string, description: string)

  datatype LineItem = LineItem(item: Label, quantity: real, unitCost: real, total: real)

  function UnitCost(l: ComponentLine): Option<real> {
    if l.bestSource.Some? then l.bestSource.value.unitCost else None
  }

  /** The truth test `if comp['unit_cost']`: a cost exists and is not zero. */
  predicate Priced(l: ComponentLine) {
    UnitCost(l).Some? && UnitCost(l).value != 0.0
  }

  /** What a direct component adds to the total under multiplier `m`. */
  function Contribution(l: ComponentLine, m: real): real {
    if Priced(l) then UnitCost(l).value * l.quantity * m else 0.0
  }

  function ComponentItem(l: ComponentLine, m: real): LineItem
    requires Priced(l)
  {
    LineItem(PartLabel(l.mfgPartNumber, l.manufacturer), l.quantity, UnitCost(l).value, Contribution(l, m))
  }

  /** The total over the direct components (the first loop). */
  function DirectCost(lines: seq<ComponentLine>, m: real): real {
    if |lines| == 0 then 0.0
    else DirectCost(lines[..|lines| - 1], m) + Contribution(lines[|lines| - 1], m)
  }

  /** The breakdown lines of the direct components: one per priced line. */
  function DirectItems(lines: seq<ComponentLine>, m: real): seq<LineItem> {
    if |lines| == 0 then []
    else
      var last := lines[|lines| - 1];
      DirectItems(lines[..|lines| - 1], m) + (if Priced(last) then [ComponentItem(last, m)] else [])
  }

  function PricedCount(lines: seq<ComponentLine>): nat {
    if |lines| == 0 then 0
    else PricedCount(lines[..|lines| - 1]) + (if Priced(lines[|lines| - 1]) then 1 else 0)
  }

  /** The total cost of `productId` under multiplier `m`. */
  ghost function CostTotal(db: Tables, rank: ProductId -> nat, productId: ProductId, m: real, includeDnp: bool): real
    requires Ranked(db, rank)
    decreases rank(productId), 1, 0
  {
    SubLinesDescend(db, rank, productId);
    DirectCost(ComponentLinesOf(db, productId, includeDnp), m)
      + SubsCost(db, rank, productId, SubLinesOf(db, productId), m, includeDnp)
  }

  /** The sum of the recursive totals of the sub-assemblies `subs` of `parent`. */
  ghost function SubsCost(db: Tables, rank: ProductId -> nat, parent: ProductId, subs: seq<SubAssemblyLine>, m: real, includeDnp: bool): real
    requires Ranked(db, rank) && Below(rank, parent, subs)
    decreases rank(parent), 0, |subs|
  {
    if |subs| == 0 then 0.0
    else
      SubsCost(db, rank, parent, subs[..|subs| - 1], m, includeDnp)
        + CostTotal(db, rank, subs[|subs| - 1].productId, ChildMultiplier(subs[|subs| - 1], m), includeDnp)
  }

  /** The rollup line of one sub-assembly: its quantity, the child's total, and
      the child's total per unit, which is zero when the units are not positive. */
  ghost function RollupItem(db: Tables, rank: ProductId -> nat, s: SubAssemblyLine, m: real, includeDnp: bool): (r: LineItem)
    requires Ranked(db, rank)
    ensures r.item == SubAssemblyLabel(s.partNumber, s.description)
    ensures r.quantity == s.quantity
    ensures r.total == CostTotal(db, rank, s.productId, ChildMultiplier(s, m), includeDnp)
    ensures ChildMultiplier(s, m) > 0.0 ==> r.unitCost * ChildMultiplier(s, m) == r.total
    ensures ChildMultiplier(s, m) <= 0.0 ==> r.unitCost == 0.0
  {
    LineItem(SubAssemblyLabel(s.partNumber, s.description), s.quantity,
             if ChildMultiplier(s, m) > 0.0
             then CostTotal(db, rank, s.productId, ChildMultiplier(s, m), includeDnp) / ChildMultiplier(s, m)
             else 0.0,
             CostTotal(db, rank, s.productId, ChildMultiplier(s, m), includeDnp))
  }

  /** The rollup lines of `subs`, one per sub-assembly, in order. */
  ghost function RollupItems(db: Tables, rank: ProductId -> nat, subs: seq<SubAssemblyLine>, m: real, includeDnp: bool): (r: seq<LineItem>)
    requires Ranked(db, rank)
    ensures |r| == |subs|
  {
    if |subs| == 0 then []
    else RollupItems(db, rank, subs[..|subs| - 1], m, includeDnp) + [RollupItem(db, rank, subs[|subs| - 1], m, includeDnp)]
  }

  /** The `j`-th rollup line is that of the `j`-th sub-assembly. */
  lemma {:induction false} RollupItemsAt(db: Tables, rank: ProductId -> nat, subs: seq<SubAssemblyLine>, m: real, includeDnp: bool)
    requires Ranked(db, rank)
    ensures forall j :: 0 <= j < |subs| ==> RollupItems(db, rank, subs, m, includeDnp)[j] == RollupItem(db, rank, subs[j], m, includeDnp)
  {
    if |subs| > 0 {
      RollupItemsAt(db, rank, subs[..|subs| - 1], m, includeDnp);
    }
  }

  /** The breakdown of `productId`: its priced direct components, then one
      rollup line per sub-assembly. A child's own breakdown is not included. */
  ghost function Breakdown(db: Tables, rank: ProductId -> nat, productId: ProductId, m: real, includeDnp: bool): seq<LineItem>
    requires Ranked(db, rank)
  {
    DirectItems(ComponentLinesOf(db, productId, includeDnp), m)
      + RollupItems(db, rank, SubLinesOf(db, productId), m, includeDnp)
  }

  function SumTotals(items: seq<LineItem>): real {
    if |items| == 0 then 0.0 else SumTotals(items[..|items| - 1]) + items[|items| - 1].total
  }

  // ---------------------------------------------------------------------------
  // Lemmas about the direct components

  lemma {:induction false} DirectCostAppend(a: seq<ComponentLine>, b: seq<ComponentLine>, m: real)
    ensures DirectCost(a + b, m) == DirectCost(a, m) + DirectCost(b, m)
  {
    if |b| == 0 {
      assert a + b == a;
    } else {
      assert (a + b)[..|a + b| - 1] == a + b[..|b| - 1];
      DirectCostAppend(a, b[..|b| - 1], m);
    }
  }

  lemma {:induction false} DirectItemsAppend(a: seq<ComponentLine>, b: seq<ComponentLine>, m: real)
    ensures DirectItems(a + b, m) == DirectItems(a, m) + DirectItems(b, m)
  {
    if |b| == 0 {
      assert a + b == a;
    } else {
      assert (a + b)[..|a + b| - 1] == a + b[..|b| - 1];
      DirectItemsAppend(a, b[..|b| - 1], m);
    }
  }

  /** A component whose cost is missing or zero neither changes the total nor
      gets a breakdown line: dropping it changes nothing. */
  lemma {:induction false} UnpricedAddsNothing(lines: seq<ComponentLine>, i: nat, m: real)
    requires i < |lines| && !Priced(lines[i])
    ensures DirectCost(lines, m) == DirectCost(lines[..i] + lines[i + 1..], m)
    ensures DirectItems(lines, m) == DirectItems(lines[..i] + lines[i + 1..], m)
  {
    var a, x, b := lines[..i], lines[i], lines[i + 1..];
    assert lines == (a + [x]) + b;
    DirectCostAppend(a + [x], b, m);
    DirectCostAppend(a, b, m);
    DirectItemsAppend(a + [x], b, m);
    DirectItemsAppend(a, b, m);
    assert (a + [x])[..|a + [x]| - 1] == a;
  }

  /** The direct breakdown lists exactly the priced components, each labelled
      as a part, and sums to the direct total. */
  lemma {:induction false} DirectItemsShape(lines: seq<ComponentLine>, m: real)
    ensures |DirectItems(lines, m)| == PricedCount(lines)
    ensures forall k :: 0 <= k < |DirectItems(lines, m)| ==> DirectItems(lines, m)[k].item.PartLabel?
    ensures SumTotals(DirectItems(lines, m)) == DirectCost(lines, m)
  {
    if |lines| > 0 {
      var init, last := lines[..|lines| - 1], lines[|lines| - 1];
      DirectItemsShape(init, m);
      var items := DirectItems(lines, m);
      if Priced(last) {
        assert items[..|items| - 1] == DirectItems(init, m);
      } else {
        assert items == DirectItems(init, m);
      }
    }
  }

  /** `x` is the breakdown line of one of the priced components. */
  predicate ItemOfPriced(lines: seq<ComponentLine>, m: real, x: LineItem) {
    exists i :: 0 <= i < |lines| && Priced(lines[i]) && x == ComponentItem(lines[i], m)
  }

  /** Each direct breakdown line is the line of a priced component (its part
      number and manufacturer, its quantity, its unit cost and its total), and
      every priced component has its line. */
  lemma {:induction false} DirectItemsArePriced(lines: seq<ComponentLine>, m: real)
    ensures forall x :: x in DirectItems(lines, m) ==> ItemOfPriced(lines, m, x)
    ensures forall i :: 0 <= i < |lines| && Priced(lines[i]) ==> ComponentItem(lines[i], m) in DirectItems(lines, m)
  {
    if |lines| > 0 {
      var init, last := lines[..|lines| - 1], lines[|lines| - 1];
      DirectItemsArePriced(init, m);
      var prev := DirectItems(init, m);
      forall x | x in DirectItems(lines, m)
        ensures ItemOfPriced(lines, m, x)
      {
        if x in prev {
          var i :| 0 <= i < |init| && Priced(init[i]) && x == ComponentItem(init[i], m);
          assert lines[i] == init[i];
        } else {
          assert Priced(last) && x == ComponentItem(lines[|lines| - 1], m);
        }
      }
      forall i | 0 <= i < |lines| && Priced(lines[i])
        ensures ComponentItem(lines[i], m) in DirectItems(lines, m)
      {
        if i < |init| {
          assert lines[i] == init[i];
        }
      }
    }
  }

  lemma {:induction false} DirectCostLinear(lines: seq<ComponentLine>, m: real, k: real, km: real)
    requires km == k * m
    ensures ScaledBy(k, DirectCost(lines, m), DirectCost(lines, km))
  {
    if |lines| > 0 {
      var last := lines[|lines| - 1];
      DirectCostLinear(lines[..|lines| - 1], m, k, km);
      if Priced(last) {
        var c := UnitCost(last).value;
        assert c * last.quantity * (k * m) == k * (c * last.quantity * m);
      }
    }
  }

  // ---------------------------------------------------------------------------
  // Lemmas about the whole breakdown

  lemma {:induction false} SumTotalsAppend(a: seq<LineItem>, b: seq<LineItem>)
    ensures SumTotals(a + b) == SumTotals(a) + SumTotals(b)
  {
    if |b| == 0 {
      assert a + b == a;
    } else {
      assert (a + b)[..|a + b| - 1] == a + b[..|b| - 1];
      SumTotalsAppend(a, b[..|b| - 1]);
    }
  }

  lemma {:induction false} RollupItemsSum(db: Tables, rank: ProductId -> nat, parent: ProductId, subs: seq<SubAssemblyLine>, m: real, includeDnp: bool)
    requires Ranked(db, rank) && Below(rank, parent, subs)
    ensures SumTotals(RollupItems(db, rank, subs, m, includeDnp)) == SubsCost(db, rank, parent, subs, m, includeDnp)
  {
    if |subs| > 0 {
      var items := RollupItems(db, rank, subs, m, includeDnp);
      RollupItemsSum(db, rank, parent, subs[..|subs| - 1], m, includeDnp);
      assert items[..|items| - 1] == RollupItems(db, rank, subs[..|subs| - 1], m, includeDnp);
    }
  }

  /** The returned total is the sum of the breakdown's `total` fields. */
  lemma {:induction false} BreakdownSumsToTotal(db: Tables, rank: ProductId -> nat, productId: ProductId, m: real, includeDnp: bool)
    requires Ranked(db, rank)
    ensures SumTotals(Breakdown(db, rank, productId, m, includeDnp)) == CostTotal(db, rank, productId, m, includeDnp)
  {
    var lines, subs := ComponentLinesOf(db, productId, includeDnp), SubLinesOf(db, productId);
    SubLinesDescend(db, rank, productId);
    DirectItemsShape(lines, m);
    RollupItemsSum(db, rank, productId, subs, m, includeDnp);
    SumTotalsAppend(DirectItems(lines, m), RollupItems(db, rank, subs, m, includeDnp));
  }

  /** The breakdown holds the direct component lines first (one per priced
      component, by `DirectItemsShape`), then exactly one rollup line per
      sub-assembly, in lookup order. */
  lemma {:induction false} BreakdownShape(db: Tables, rank: ProductId -> nat, productId: ProductId, m: real, includeDnp: bool)
    requires Ranked(db, rank)
    ensures var lines, subs := ComponentLinesOf(db, productId, includeDnp), SubLinesOf(db, productId);
      var b, direct := Breakdown(db, rank, productId, m, includeDnp), DirectItems(lines, m);
      && |b| == |direct| + |subs|
      && (forall k :: 0 <= k < |direct| ==> b[k] == direct[k])
      && (forall j :: 0 <= j < |subs| ==> b[|direct| + j] == RollupItem(db, rank, subs[j], m, includeDnp))
  {
    RollupItemsAt(db, rank, SubLinesOf(db, productId), m, includeDnp);
  }

  // ---------------------------------------------------------------------------
  // Linearity in the multiplier

  /** Unfolds `CostTotal` into its direct and sub-assembly parts. */
  lemma {:induction false} CostSplit(db: Tables, rank: ProductId -> nat, productId: ProductId, m: real, includeDnp: bool)
    requires Ranked(db, rank)
    ensures Below(rank, productId, SubLinesOf(db, productId))
    ensures CostTotal(db, rank, productId, m, includeDnp)
      == DirectCost(ComponentLinesOf(db, productId, includeDnp), m) + SubsCost(db, rank, productId, SubLinesOf(db, productId), m, includeDnp)
  {
    SubLinesDescend(db, rank, productId);
  }

  /** Scaling the multiplier by `k` scales the total by `k`. (`km` names the
      scaled multiplier `k * m`.) */
  lemma {:induction false} CostLinear(db: Tables, rank: ProductId -> nat, productId: ProductId, m: real, k: real, km: real, includeDnp: bool)
    requires Ranked(db, rank) && km == k * m
    ensures ScaledBy(k, CostTotal(db, rank, productId, m, includeDnp), CostTotal(db, rank, productId, km, includeDnp))
    decreases rank(productId), 1, 0
  {
    var lines, subs := ComponentLinesOf(db, productId, includeDnp), SubLinesOf(db, productId);
    SubLinesDescend(db, rank, productId);
    CostSplit(db, rank, productId, m, includeDnp);
    CostSplit(db, rank, productId, km, includeDnp);
    DirectCostLinear(lines, m, k, km);
    SubsCostLinear(db, rank, productId, subs, m, k, km, includeDnp);
    SumScales(k, DirectCost(lines, m), SubsCost(db, rank, productId, subs, m, includeDnp), CostTotal(db, rank, productId, m, includeDnp),
              DirectCost(lines, km), SubsCost(db, rank, productId, subs, km, includeDnp), CostTotal(db, rank, productId, km, includeDnp));
  }

  lemma {:induction false} SubsCostLinear(db: Tables, rank: ProductId -> nat, parent: ProductId, subs: seq<SubAssemblyLine>, m: real, k: real, km: real, includeDnp: bool)
    requires Ranked(db, rank) && Below(rank, parent, subs) && km == k * m
    ensures ScaledBy(k, SubsCost(db, rank, parent, subs, m, includeDnp), SubsCost(db, rank, parent, subs, km, includeDnp))
    decreases rank(parent), 0, |subs|
  {
    if |subs| > 0 {
      var init, last := subs[..|subs| - 1], subs[|subs| - 1];
      SubsCostLinear(db, rank, parent, init, m, k, km, includeDnp);
      ChildMultiplierScales(last, m, k, km);
      CostLinear(db, rank, last.productId, ChildMultiplier(last, m), k, ChildMultiplier(last, km), includeDnp);
      SumScales(k, SubsCost(db, rank, parent, init, m, includeDnp),
                CostTotal(db, rank, last.productId, ChildMultiplier(last, m), includeDnp),
                SubsCost(db, rank, parent, subs, m, includeDnp),
                SubsCost(db, rank, parent, init, km, includeDnp),
                CostTotal(db, rank, last.productId, ChildMultiplier(last, km), includeDnp),
                SubsCost(db, rank, parent, subs, km, includeDnp));
    }
  }

  /** A zero multiplier (a zero quantity anywhere on the path) nullifies the
      whole subtree. */
  lemma {:induction false} ZeroMultiplierCostsNothing(db: Tables, rank: ProductId -> nat, productId: ProductId, includeDnp: bool)
    requires Ranked(db, rank)
    ensures CostTotal(db, rank, productId, 0.0, includeDnp) == 0.0
  {
    CostLinear(db, rank, productId, 1.0, 0.0, 0.0, includeDnp);
  }

  /** A sub-assembly line of quantity zero rolls up to total 0 and unit cost 0. */
  lemma {:induction false} ZeroQuantityRollup(db: Tables, rank: ProductId -> nat, s: SubAssemblyLine, m: real, includeDnp: bool)
    requires Ranked(db, rank) && s.quantity == 0.0
    ensures RollupItem(db, rank, s, m, includeDnp).total == 0.0
    ensures RollupItem(db, rank, s, m, includeDnp).unitCost == 0.0
  {
    ZeroMultiplierCostsNothing(db, rank, s.productId, includeDnp);
  }

  // ---------------------------------------------------------------------------
  // One step of each loop of `calculate_bom_cost`

  /** Extending the prefix of direct components by one line. */
  lemma {:induction false} DirectStep(lines: seq<ComponentLine>, i: nat, m: real)
    requires i < |lines|
    ensures DirectCost(lines[..i + 1], m) == DirectCost(lines[..i], m) + Contribution(lines[i], m)
    ensures DirectItems(lines[..i + 1], m)
      == DirectItems(lines[..i], m) + (if Priced(lines[i]) then [ComponentItem(lines[i], m)] else [])
  {
    assert lines[..i + 1][..i] == lines[..i];
  }

  /** Extending the prefix of sub-assemblies by one: the child's total, as
      the recursive call returns it, and the rollup line the loop builds from it. */
  lemma {:induction false} RollupStep(db: Tables, rank: ProductId -> nat, parent: ProductId, subs: seq<SubAssemblyLine>, j: nat, m: real, includeDnp: bool,
                                      subCost: real, unitCost: real)
    requires Ranked(db, rank) && Below(rank, parent, subs) && j < |subs|
    requires subCost == CostTotal(db, rank, subs[j].productId, ChildMultiplier(subs[j], m), includeDnp)
    requires unitCost == if ChildMultiplier(subs[j], m) > 0.0 then subCost / ChildMultiplier(subs[j], m) else 0.0
    ensures Below(rank, parent, subs[..j]) && Below(rank, parent, subs[..j + 1])
    ensures SubsCost(db, rank, parent, subs[..j + 1], m, includeDnp) == SubsCost(db, rank, parent, subs[..j], m, includeDnp) + subCost
    ensures RollupItems(db, rank, subs[..j + 1], m, includeDnp)
      == RollupItems(db, rank, subs[..j], m, includeDnp) + [LineItem(SubAssemblyLabel(subs[j].partNumber, subs[j].description), subs[j].quantity, unitCost, subCost)]
  {
    BelowPrefix(rank, parent, subs, j);
    BelowPrefix(rank, parent, subs, j + 1);
    assert subs[..j + 1][..j] == subs[..j];
  }

  /** Appending to a breakdown that already has a prefix. */
  lemma {:induction false} ItemsSnoc(a: seq<LineItem>, b: seq<LineItem>, x: LineItem)
    ensures (a + b) + [x] == a + (b + [x])
  {
  }
}
