/** The flattened BOM of `get_flattened_bom`: every component reached anywhere
    below a product, merged into one entry per (mfg part number, manufacturer).

    The walk is specified in two steps. `Encounters` lists, in depth-first
    order, every component line the walk visits together with its quantity
    scaled by the path multiplier. `MergeAll` folds that list into the
    dictionary the way `flatten_recursive` does: the first encounter of a key
    inserts it, a later one adds to its quantity. The dictionary is a map plus
    the insertion order of its keys, since the result is its list of values. */
module Flatten {
  import opened BomTables

  datatype PartKey = PartKey(mfgPartNumber: string, manufacturer: string)

  /** A value of the dictionary. */
  datatype FlatLine = FlatLine(
    mfgPartNumber: string,
    manufacturer: string,
    description: string,
    category: string,
    unitOfMeasure: string,
    quantity: real,
    distributor: Option<string>,
    distributorPartNumber: Option<string>,
    unitCost: Option<real>,
    doNotPopulate: bool)

  /** A component line reached by the walk, with its scaled quantity. */
  datatype Encounter = Encounter(line: ComponentLine, quantity: real)

  /** The dictionary: its entries and the order in which keys were inserted. */
  datatype Flat = Flat(lines: map<PartKey, FlatLine>, order: seq<PartKey>)

  const EMPTY: Flat := Flat(map[], [])

  function KeyOf(l: ComponentLine): PartKey {
    PartKey(l.mfgPartNumber, l.manufacturer)
  }

  function LineKey(f: FlatLine): PartKey {
    PartKey(f.mfgPartNumber, f.manufacturer)
  }

  /** A line of the walk under multiplier `m`: `quantity * qty`. */
  function EncounterOf(l: ComponentLine, m: real): Encounter {
    Encounter(l, l.quantity * m)
  }

  /** The entry inserted on a key's first encounter. */
  function FirstLine(e: Encounter): (r: FlatLine)
    ensures LineKey(r) == KeyOf(e.line) && r.quantity == e.quantity
  {
    var l := e.line;
    var src := l.bestSource;
    FlatLine(l.mfgPartNumber, l.manufacturer, l.description, l.category, l.unitOfMeasure, e.quantity,
             if src.Some? then Some(src.value.distributor) else None,
             if src.Some? then Some(src.value.distributorPartNumber) else None,
             if src.Some? then src.value.unitCost else None,
             l.doNotPopulate)
  }

  /** Everything of an entry except its quantity. */
  function Descriptive(f: FlatLine): FlatLine {
    f.(quantity := 0.0)
  }

  /** The dictionary is well formed: every key is inserted once, the order
      lists exactly the keys, and each entry carries its own key. */
  ghost predicate ValidFlat(f: Flat) {
    && (forall i, j :: 0 <= i < j < |f.order| ==> f.order[i] != f.order[j])
    && (forall k :: k in f.lines <==> k in f.order)
    && (forall k :: k in f.lines ==> LineKey(f.lines[k]) == k)
  }

  function QtyOf(f: Flat, k: PartKey): real {
    if k in f.lines then f.lines[k].quantity else 0.0
  }

  /** One step of `flatten_recursive`'s first loop. */
  function Merge(f: Flat, e: Encounter): (r: Flat)
    ensures ValidFlat(f) ==> ValidFlat(r)
    ensures KeyOf(e.line) in r.lines && r.lines.Keys == f.lines.Keys + {KeyOf(e.line)}
    ensures KeyOf(e.line) in f.lines ==> r.lines[KeyOf(e.line)].quantity == f.lines[KeyOf(e.line)].quantity + e.quantity
    ensures KeyOf(e.line) in f.lines ==> Descriptive(r.lines[KeyOf(e.line)]) == Descriptive(f.lines[KeyOf(e.line)])
    ensures KeyOf(e.line) !in f.lines ==> r.lines[KeyOf(e.line)] == FirstLine(e)
    ensures forall k :: k in f.lines && k != KeyOf(e.line) ==> r.lines[k] == f.lines[k]
    ensures |f.order| <= |r.order| && r.order[..|f.order|] == f.order
  {
    var k := KeyOf(e.line);
    if k in f.lines then
      Flat(f.lines[k := f.lines[k].(quantity := f.lines[k].quantity + e.quantity)], f.order)
    else
      var r := Flat(f.lines[k := FirstLine(e)], f.order + [k]);
      assert ValidFlat(f) ==> forall i :: 0 <= i < |f.order| ==> f.order[i] != k;
      r
  }

  /** The dictionary after merging the encounters `es`, in order, into `f`. */
  function MergeAll(f: Flat, es: seq<Encounter>): (r: Flat)
    ensures ValidFlat(f) ==> ValidFlat(r)
    ensures |f.order| <= |r.order| && r.order[..|f.order|] == f.order
  {
    if |es| == 0 then f else Merge(MergeAll(f, es[..|es| - 1]), es[|es| - 1])
  }

  /** The list of values of the dictionary, in insertion order. */
  function Values(f: Flat): (r: seq<FlatLine>)
    requires ValidFlat(f)
    ensures |r| == |f.order| && forall i :: 0 <= i < |r| ==> r[i] == f.lines[f.order[i]]
  {
    seq(|f.order|, i requires 0 <= i < |f.order| => f.lines[f.order[i]])
  }

  // ---------------------------------------------------------------------------
  // The walk

  function DirectEncounters(lines: seq<ComponentLine>, m: real): (r: seq<Encounter>)
    ensures |r| == |lines|
  {
    if |lines| == 0 then []
    else DirectEncounters(lines[..|lines| - 1], m) + [EncounterOf(lines[|lines| - 1], m)]
  }

  /** The `i`-th direct encounter is the `i`-th line under multiplier `m`. */
  lemma {:induction false} DirectEncountersAt(lines: seq<ComponentLine>, m: real)
    ensures forall i :: 0 <= i < |lines| ==> DirectEncounters(lines, m)[i] == EncounterOf(lines[i], m)
  {
    if |lines| > 0 {
      DirectEncountersAt(lines[..|lines| - 1], m);
    }
  }

  /** Every component line reached from `productId`, depth first: its direct
      components, then each sub-assembly's encounters in turn. */
  ghost function Encounters(db: Tables, rank: ProductId -> nat, productId: ProductId, m: real, includeDnp: bool): seq<Encounter>
    requires Ranked(db, rank)
    decreases rank(productId), 1, 0
  {
    SubLinesDescend(db, rank, productId);
    DirectEncounters(ComponentLinesOf(db, productId, includeDnp), m)
      + SubEncounters(db, rank, productId, SubLinesOf(db, productId), m, includeDnp)
  }

  ghost function SubEncounters(db: Tables, rank: ProductId -> nat, parent: ProductId, subs: seq<SubAssemblyLine>, m: real, includeDnp: bool): seq<Encounter>
    requires Ranked(db, rank) && Below(rank, parent, subs)
    decreases rank(parent), 0, |subs|
  {
    if |subs| == 0 then []
    else
      SubEncounters(db, rank, parent, subs[..|subs| - 1], m, includeDnp)
        + Encounters(db, rank, subs[|subs| - 1].productId, ChildMultiplier(subs[|subs| - 1], m), includeDnp)
  }

  /** The dictionary `get_flattened_bom` builds for `productId`. */
  ghost function Flattened(db: Tables, rank: ProductId -> nat, productId: ProductId, m: real, includeDnp: bool): Flat
    requires Ranked(db, rank)
  {
    MergeAll(EMPTY, Encounters(db, rank, productId, m, includeDnp))
  }

  // ---------------------------------------------------------------------------
  // Reference quantities

  /** The keys of the encounters `es`. */
  ghost function KeysOf(es: seq<Encounter>): set<PartKey> {
    set e | e in es :: KeyOf(e.line)
  }

  /** The total scaled quantity of key `k` over the encounters `es`. */
  function SumFor(es: seq<Encounter>, k: PartKey): real {
    if |es| == 0 then 0.0 else SumFor(es[..|es| - 1], k) + QtyFor(es[|es| - 1], k)
  }

  /** What one encounter adds to key `k`. */
  function QtyFor(e: Encounter, k: PartKey): real {
    if KeyOf(e.line) == k then e.quantity else 0.0
  }

  function Scaled(e: Encounter, c: real): Encounter {
    e.(quantity := c * e.quantity)
  }

  function ScaleAll(es: seq<Encounter>, c: real): (r: seq<Encounter>)
    ensures |r| == |es|
  {
    if |es| == 0 then [] else ScaleAll(es[..|es| - 1], c) + [Scaled(es[|es| - 1], c)]
  }

  lemma {:induction false} ScaleAllAt(es: seq<Encounter>, c: real)
    ensures forall i :: 0 <= i < |es| ==> ScaleAll(es, c)[i] == Scaled(es[i], c)
  {
    if |es| > 0 {
      ScaleAllAt(es[..|es| - 1], c);
    }
  }

  // ---------------------------------------------------------------------------
  // Lemmas about merging

  lemma {:induction false} MergeAllAppend(f: Flat, a: seq<Encounter>, b: seq<Encounter>)
    ensures MergeAll(f, a + b) == MergeAll(MergeAll(f, a), b)
  {
    if |b| == 0 {
      assert a + b == a;
    } else {
      assert (a + b)[..|a + b| - 1] == a + b[..|b| - 1];
      MergeAllAppend(f, a, b[..|b| - 1]);
    }
  }

  /** The keys of the result are the keys already present plus the keys met. */
  lemma {:induction false} MergeAllKeys(f: Flat, es: seq<Encounter>)
    ensures MergeAll(f, es).lines.Keys == f.lines.Keys + KeysOf(es)
  {
    if |es| > 0 {
      var init, last := es[..|es| - 1], es[|es| - 1];
      MergeAllKeys(f, init);
      KeysOfSnoc(init, last);
      assert es == init + [last];
    }
  }

  lemma {:induction false} KeysOfSnoc(es: seq<Encounter>, e: Encounter)
    ensures KeysOf(es + [e]) == KeysOf(es) + {KeyOf(e.line)}
  {
    var s := es + [e];
    forall x | x in s ensures x in es || x == e {
      var i :| 0 <= i < |s| && s[i] == x;
      if i < |es| {
        assert es[i] == x;
      }
    }
  }

  /** A key's quantity is what it had plus the sum of its encounters: repeat
      encounters add, they never overwrite. */
  lemma {:induction false} MergeAllQty(f: Flat, es: seq<Encounter>, k: PartKey)
    ensures QtyOf(MergeAll(f, es), k) == QtyOf(f, k) + SumFor(es, k)
  {
    if |es| > 0 {
      MergeAllQty(f, es[..|es| - 1], k);
    }
  }

  /** An entry already present keeps its descriptive fields whatever is merged. */
  lemma {:induction false} MergeAllKeepsPresent(f: Flat, es: seq<Encounter>, k: PartKey)
    requires k in f.lines
    ensures k in MergeAll(f, es).lines
    ensures Descriptive(MergeAll(f, es).lines[k]) == Descriptive(f.lines[k])
  {
    if |es| > 0 {
      MergeAllKeepsPresent(f, es[..|es| - 1], k);
    }
  }

  /** A new entry takes its descriptive fields from the first encounter of its
      key, and later encounters do not change them. */
  lemma {:induction false} FirstEncounterWins(f: Flat, es: seq<Encounter>, k: PartKey, i: nat)
    requires k !in f.lines
    requires i < |es| && KeyOf(es[i].line) == k
    requires forall j :: 0 <= j < i ==> KeyOf(es[j].line) != k
    ensures k in MergeAll(f, es).lines
    ensures Descriptive(MergeAll(f, es).lines[k]) == Descriptive(FirstLine(es[i]))
  {
    var before, at, after := es[..i], es[i], es[i + 1..];
    assert es == (before + [at]) + after;
    MergeAllAppend(f, before + [at], after);
    MergeAllKeys(f, before);
    assert (before + [at])[..i] == before;
    assert k !in KeysOf(before);
    MergeAllKeepsPresent(MergeAll(f, before + [at]), after, k);
  }

  /** Each (mfg part number, manufacturer) appears at most once in the result. */
  lemma {:induction false} ValuesKeysDistinct(f: Flat)
    requires ValidFlat(f)
    ensures forall i, j :: 0 <= i < j < |Values(f)| ==> LineKey(Values(f)[i]) != LineKey(Values(f)[j])
  {
  }

  lemma {:induction false} KeysOfScaled(es: seq<Encounter>, c: real)
    ensures KeysOf(ScaleAll(es, c)) == KeysOf(es)
  {
    var s := ScaleAll(es, c);
    ScaleAllAt(es, c);
    forall key | key in KeysOf(es) ensures key in KeysOf(s) {
      var e :| e in es && KeyOf(e.line) == key;
      var i :| 0 <= i < |es| && es[i] == e;
      assert s[i] in s;
    }
    forall key | key in KeysOf(s) ensures key in KeysOf(es) {
      var e :| e in s && KeyOf(e.line) == key;
      var i :| 0 <= i < |s| && s[i] == e;
      assert es[i] in es;
    }
  }

  // ---------------------------------------------------------------------------
  // Linearity of the walk

  /** A line met under multiplier `c * m` is the line met under `m`, scaled. */
  lemma {:induction false} EncounterScaled(l: ComponentLine, m: real, c: real, cm: real)
    requires cm == c * m
    ensures EncounterOf(l, cm) == Scaled(EncounterOf(l, m), c)
  {
  }

  lemma {:induction false} DirectEncountersLinear(lines: seq<ComponentLine>, m: real, c: real, cm: real)
    requires cm == c * m
    ensures DirectEncounters(lines, cm) == ScaleAll(DirectEncounters(lines, m), c)
  {
    var a, b := DirectEncounters(lines, cm), ScaleAll(DirectEncounters(lines, m), c);
    ScaleAllAt(DirectEncounters(lines, m), c);
    DirectEncountersAt(lines, m);
    DirectEncountersAt(lines, cm);
    forall i | 0 <= i < |lines| ensures a[i] == b[i] {
      EncounterScaled(lines[i], m, c, cm);
    }
  }

  lemma {:induction false} ScaleAllAppend(a: seq<Encounter>, b: seq<Encounter>, c: real)
    ensures ScaleAll(a + b, c) == ScaleAll(a, c) + ScaleAll(b, c)
  {
    ScaleAllAt(a + b, c);
    ScaleAllAt(a, c);
    ScaleAllAt(b, c);
    assert forall i :: 0 <= i < |a + b| ==> ScaleAll(a + b, c)[i] == (ScaleAll(a, c) + ScaleAll(b, c))[i];
  }

  /** Scaling the multiplier by `c` scales every encounter's quantity by `c`.
      (`cm` names the scaled multiplier `c * m`.) */
  lemma {:induction false} EncountersLinear(db: Tables, rank: ProductId -> nat, productId: ProductId, m: real, c: real, cm: real, includeDnp: bool)
    requires Ranked(db, rank) && cm == c * m
    ensures Encounters(db, rank, productId, cm, includeDnp) == ScaleAll(Encounters(db, rank, productId, m, includeDnp), c)
    decreases rank(productId), 1, 0
  {
    var lines, subs := ComponentLinesOf(db, productId, includeDnp), SubLinesOf(db, productId);
    SubLinesDescend(db, rank, productId);
    DirectEncountersLinear(lines, m, c, cm);
    SubEncountersLinear(db, rank, productId, subs, m, c, cm, includeDnp);
    ScaleAllAppend(DirectEncounters(lines, m), SubEncounters(db, rank, productId, subs, m, includeDnp), c);
  }

  lemma {:induction false} SubEncountersLinear(db: Tables, rank: ProductId -> nat, parent: ProductId, subs: seq<SubAssemblyLine>, m: real, c: real, cm: real, includeDnp: bool)
    requires Ranked(db, rank) && Below(rank, parent, subs) && cm == c * m
    ensures SubEncounters(db, rank, parent, subs, cm, includeDnp) == ScaleAll(SubEncounters(db, rank, parent, subs, m, includeDnp), c)
    decreases rank(parent), 0, |subs|
  {
    if |subs| > 0 {
      var init, last := subs[..|subs| - 1], subs[|subs| - 1];
      SubEncountersLinear(db, rank, parent, init, m, c, cm, includeDnp);
      ChildMultiplierScales(last, m, c, cm);
      EncountersLinear(db, rank, last.productId, ChildMultiplier(last, m), c, ChildMultiplier(last, cm), includeDnp);
      ScaleAllAppend(SubEncounters(db, rank, parent, init, m, includeDnp),
                     Encounters(db, rank, last.productId, ChildMultiplier(last, m), includeDnp), c);
    }
  }

  /** Merging scaled encounters inserts the same keys. */
  lemma {:induction false} MergeAllScaledKeys(es: seq<Encounter>, c: real)
    ensures MergeAll(EMPTY, ScaleAll(es, c)).lines.Keys == MergeAll(EMPTY, es).lines.Keys
  {
    MergeAllKeys(EMPTY, es);
    MergeAllKeys(EMPTY, ScaleAll(es, c));
    KeysOfScaled(es, c);
  }

  /** Scaling the root multiplier by `c` reaches the same keys. */
  lemma {:induction false} FlattenKeysInvariant(db: Tables, rank: ProductId -> nat, productId: ProductId, m: real, c: real, cm: real, includeDnp: bool)
    requires Ranked(db, rank) && cm == c * m
    ensures Flattened(db, rank, productId, cm, includeDnp).lines.Keys == Flattened(db, rank, productId, m, includeDnp).lines.Keys
  {
    EncountersLinear(db, rank, productId, m, c, cm, includeDnp);
    MergeAllScaledKeys(Encounters(db, rank, productId, m, includeDnp), c);
  }

  /** The flattened quantity of a key is the sum of its scaled quantities over
      every path that reaches it. */
  lemma {:induction false} FlattenedQuantity(db: Tables, rank: ProductId -> nat, productId: ProductId, m: real, includeDnp: bool, k: PartKey)
    requires Ranked(db, rank)
    ensures ValidFlat(Flattened(db, rank, productId, m, includeDnp))
    ensures k in Flattened(db, rank, productId, m, includeDnp).lines <==> k in KeysOf(Encounters(db, rank, productId, m, includeDnp))
    ensures QtyOf(Flattened(db, rank, productId, m, includeDnp), k) == SumFor(Encounters(db, rank, productId, m, includeDnp), k)
  {
    var es := Encounters(db, rank, productId, m, includeDnp);
    MergeAllKeys(EMPTY, es);
    MergeAllQty(EMPTY, es, k);
  }

  // ---------------------------------------------------------------------------
  // Per-key reference total

  /** What the direct lines add to key `k` under multiplier `m`. */
  function DirectQty(lines: seq<ComponentLine>, m: real, k: PartKey): real {
    if |lines| == 0 then 0.0
    else
      var last := lines[|lines| - 1];
      DirectQty(lines[..|lines| - 1], m, k) + (if KeyOf(last) == k then last.quantity * m else 0.0)
  }

  /** The quantity of key `k` needed to build `productId` under multiplier
      `m`, defined by recursion over the product tree independently of the
      dictionary. */
  ghost function KeyTotal(db: Tables, rank: ProductId -> nat, productId: ProductId, m: real, includeDnp: bool, k: PartKey): real
    requires Ranked(db, rank)
    decreases rank(productId), 1, 0
  {
    SubLinesDescend(db, rank, productId);
    DirectQty(ComponentLinesOf(db, productId, includeDnp), m, k)
      + SubsKeyTotal(db, rank, productId, SubLinesOf(db, productId), m, includeDnp, k)
  }

  ghost function SubsKeyTotal(db: Tables, rank: ProductId -> nat, parent: ProductId, subs: seq<SubAssemblyLine>, m: real, includeDnp: bool, k: PartKey): real
    requires Ranked(db, rank) && Below(rank, parent, subs)
    decreases rank(parent), 0, |subs|
  {
    if |subs| == 0 then 0.0
    else
      SubsKeyTotal(db, rank, parent, subs[..|subs| - 1], m, includeDnp, k)
        + KeyTotal(db, rank, subs[|subs| - 1].productId, ChildMultiplier(subs[|subs| - 1], m), includeDnp, k)
  }

  lemma {:induction false} SumForAppend(a: seq<Encounter>, b: seq<Encounter>, k: PartKey)
    ensures SumFor(a + b, k) == SumFor(a, k) + SumFor(b, k)
  {
    if |b| == 0 {
      assert a + b == a;
    } else {
      assert (a + b)[..|a + b| - 1] == a + b[..|b| - 1];
      SumForAppend(a, b[..|b| - 1], k);
    }
  }

  lemma {:induction false} DirectSum(lines: seq<ComponentLine>, m: real, k: PartKey)
    ensures SumFor(DirectEncounters(lines, m), k) == DirectQty(lines, m, k)
  {
    if |lines| > 0 {
      DirectSum(lines[..|lines| - 1], m, k);
      assert DirectEncounters(lines, m)[..|lines| - 1] == DirectEncounters(lines[..|lines| - 1], m);
    }
  }

  /** The walk's encounters of `k` add up to the reference total. */
  lemma {:induction false} EncountersSum(db: Tables, rank: ProductId -> nat, productId: ProductId, m: real, includeDnp: bool, k: PartKey)
    requires Ranked(db, rank)
    ensures SumFor(Encounters(db, rank, productId, m, includeDnp), k) == KeyTotal(db, rank, productId, m, includeDnp, k)
    decreases rank(productId), 1, 0
  {
    var lines, subs := ComponentLinesOf(db, productId, includeDnp), SubLinesOf(db, productId);
    SubLinesDescend(db, rank, productId);
    DirectSum(lines, m, k);
    SubEncountersSum(db, rank, productId, subs, m, includeDnp, k);
    SumForAppend(DirectEncounters(lines, m), SubEncounters(db, rank, productId, subs, m, includeDnp), k);
  }

  lemma {:induction false} SubEncountersSum(db: Tables, rank: ProductId -> nat, parent: ProductId, subs: seq<SubAssemblyLine>, m: real, includeDnp: bool, k: PartKey)
    requires Ranked(db, rank) && Below(rank, parent, subs)
    ensures SumFor(SubEncounters(db, rank, parent, subs, m, includeDnp), k) == SubsKeyTotal(db, rank, parent, subs, m, includeDnp, k)
    decreases rank(parent), 0, |subs|
  {
    if |subs| > 0 {
      var init, last := subs[..|subs| - 1], subs[|subs| - 1];
      SubEncountersSum(db, rank, parent, init, m, includeDnp, k);
      EncountersSum(db, rank, last.productId, ChildMultiplier(last, m), includeDnp, k);
      SumForAppend(SubEncounters(db, rank, parent, init, m, includeDnp), Encounters(db, rank, last.productId, ChildMultiplier(last, m), includeDnp), k);
    }
  }

  /** The dictionary holds, for every key, exactly the reference total. */
  lemma {:induction false} FlattenedIsKeyTotal(db: Tables, rank: ProductId -> nat, productId: ProductId, m: real, includeDnp: bool, k: PartKey)
    requires Ranked(db, rank)
    ensures QtyOf(Flattened(db, rank, productId, m, includeDnp), k) == KeyTotal(db, rank, productId, m, includeDnp, k)
  {
    MergeAllQty(EMPTY, Encounters(db, rank, productId, m, includeDnp), k);
    EncountersSum(db, rank, productId, m, includeDnp, k);
  }

  // ---------------------------------------------------------------------------
  // Linearity of the quantities

  lemma {:induction false} DirectQtyLinear(lines: seq<ComponentLine>, m: real, c: real, cm: real, k: PartKey)
    requires cm == c * m
    ensures ScaledBy(c, DirectQty(lines, m, k), DirectQty(lines, cm, k))
  {
    if |lines| > 0 {
      var last := lines[|lines| - 1];
      DirectQtyLinear(lines[..|lines| - 1], m, c, cm, k);
      assert last.quantity * cm == c * (last.quantity * m);
    }
  }

  /** The reference total is linear in the multiplier. (`cm` names `c * m`.) */
  lemma {:induction false} KeyTotalLinear(db: Tables, rank: ProductId -> nat, productId: ProductId, m: real, c: real, cm: real, includeDnp: bool, k: PartKey)
    requires Ranked(db, rank) && cm == c * m
    ensures ScaledBy(c, KeyTotal(db, rank, productId, m, includeDnp, k), KeyTotal(db, rank, productId, cm, includeDnp, k))
    decreases rank(productId), 1, 0
  {
    var lines, subs := ComponentLinesOf(db, productId, includeDnp), SubLinesOf(db, productId);
    SubLinesDescend(db, rank, productId);
    DirectQtyLinear(lines, m, c, cm, k);
    SubsKeyTotalLinear(db, rank, productId, subs, m, c, cm, includeDnp, k);
    SumScales(c, DirectQty(lines, m, k), SubsKeyTotal(db, rank, productId, subs, m, includeDnp, k), KeyTotal(db, rank, productId, m, includeDnp, k),
              DirectQty(lines, cm, k), SubsKeyTotal(db, rank, productId, subs, cm, includeDnp, k), KeyTotal(db, rank, productId, cm, includeDnp, k));
  }

  lemma {:induction false} SubsKeyTotalLinear(db: Tables, rank: ProductId -> nat, parent: ProductId, subs: seq<SubAssemblyLine>, m: real, c: real, cm: real, includeDnp: bool, k: PartKey)
    requires Ranked(db, rank) && Below(rank, parent, subs) && cm == c * m
    ensures ScaledBy(c, SubsKeyTotal(db, rank, parent, subs, m, includeDnp, k), SubsKeyTotal(db, rank, parent, subs, cm, includeDnp, k))
    decreases rank(parent), 0, |subs|
  {
    if |subs| > 0 {
      var init, last := subs[..|subs| - 1], subs[|subs| - 1];
      SubsKeyTotalLinear(db, rank, parent, init, m, c, cm, includeDnp, k);
      ChildMultiplierScales(last, m, c, cm);
      KeyTotalLinear(db, rank, last.productId, ChildMultiplier(last, m), c, ChildMultiplier(last, cm), includeDnp, k);
      SumScales(c, SubsKeyTotal(db, rank, parent, init, m, includeDnp, k),
                KeyTotal(db, rank, last.productId, ChildMultiplier(last, m), includeDnp, k),
                SubsKeyTotal(db, rank, parent, subs, m, includeDnp, k),
                SubsKeyTotal(db, rank, parent, init, cm, includeDnp, k),
                KeyTotal(db, rank, last.productId, ChildMultiplier(last, cm), includeDnp, k),
                SubsKeyTotal(db, rank, parent, subs, cm, includeDnp, k));
    }
  }

  /** Scaling the root multiplier by `c` scales every flattened quantity by
      `c`. */
  lemma {:induction false} FlattenLinear(db: Tables, rank: ProductId -> nat, productId: ProductId, m: real, c: real, cm: real, includeDnp: bool, k: PartKey)
    requires Ranked(db, rank) && cm == c * m
    ensures ScaledBy(c, QtyOf(Flattened(db, rank, productId, m, includeDnp), k), QtyOf(Flattened(db, rank, productId, cm, includeDnp), k))
  {
    FlattenedIsKeyTotal(db, rank, productId, cm, includeDnp, k);
    FlattenedIsKeyTotal(db, rank, productId, m, includeDnp, k);
    KeyTotalLinear(db, rank, productId, m, c, cm, includeDnp, k);
  }

  // ---------------------------------------------------------------------------
  // One step of each loop of `flatten_recursive`

  /** Merging one more direct component line. */
  lemma {:induction false} DirectMergeStep(f: Flat, lines: seq<ComponentLine>, i: nat, m: real)
    requires i < |lines|
    ensures MergeAll(f, DirectEncounters(lines[..i + 1], m))
      == Merge(MergeAll(f, DirectEncounters(lines[..i], m)), EncounterOf(lines[i], m))
  {
    assert lines[..i + 1][..i] == lines[..i];
    var es := DirectEncounters(lines[..i + 1], m);
    assert es[..|es| - 1] == DirectEncounters(lines[..i], m);
  }

  /** Walking one more sub-assembly. */
  lemma {:induction false} SubMergeStep(f: Flat, db: Tables, rank: ProductId -> nat, parent: ProductId, subs: seq<SubAssemblyLine>, j: nat, m: real, includeDnp: bool)
    requires Ranked(db, rank) && Below(rank, parent, subs) && j < |subs|
    ensures Below(rank, parent, subs[..j]) && Below(rank, parent, subs[..j + 1])
    ensures MergeAll(f, SubEncounters(db, rank, parent, subs[..j + 1], m, includeDnp))
      == MergeAll(MergeAll(f, SubEncounters(db, rank, parent, subs[..j], m, includeDnp)),
                  Encounters(db, rank, subs[j].productId, ChildMultiplier(subs[j], m), includeDnp))
  {
    BelowPrefix(rank, parent, subs, j);
    BelowPrefix(rank, parent, subs, j + 1);
    assert subs[..j + 1][..j] == subs[..j];
    MergeAllAppend(f, SubEncounters(db, rank, parent, subs[..j], m, includeDnp),
                   Encounters(db, rank, subs[j].productId, ChildMultiplier(subs[j], m), includeDnp));
  }
}
