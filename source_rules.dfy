/** The two rules of the `component_sources` table, as functions of its rows
    in row order: `add_component_source` overwrites the row of a
    (component, distributor) pair or appends one, and
    `cleanup_duplicate_sources` deletes every row of a pair except the most
    recently updated one. */
module SourceRules {
  import opened BomTables

  /** Two rows are for the same (component, distributor) pair. */
  predicate SamePair(a: Source, b: Source) {
    a.componentId == b.componentId && a.distributor == b.distributor
  }

  predicate IsFor(s: Source, c: ComponentId, d: string) {
    s.componentId == c && s.distributor == d
  }

  /** No two rows share a (component, distributor) pair. */
  predicate OnePerPair(sources: seq<Source>) {
    forall i, j :: 0 <= i < j < |sources| ==> !SamePair(sources[i], sources[j])
  }

  /** Some row of `rows` is for the pair of `s`. */
  predicate HasPairOf(rows: seq<Source>, s: Source) {
    exists x :: x in rows && SamePair(x, s)
  }

  // ---------------------------------------------------------------------------
  // Upsert

  /** The existence check of `add_component_source`: the first row for
      (c, d), or none. */
  function FindSource(sources: seq<Source>, c: ComponentId, d: string): (r: Option<nat>)
    ensures r.Some? ==> r.value < |sources| && IsFor(sources[r.value], c, d)
    ensures r.Some? ==> forall j :: 0 <= j < r.value ==> !IsFor(sources[j], c, d)
    ensures r.None? ==> forall j :: 0 <= j < |sources| ==> !IsFor(sources[j], c, d)
  {
    if |sources| == 0 then None
    else
      var r := FindSource(sources[..|sources| - 1], c, d);
      if r.Some? then r
      else if IsFor(sources[|sources| - 1], c, d) then Some(|sources| - 1)
      else None
  }

  /** The values a caller supplies for a source: everything but the pair,
      the row id and the timestamp. */
  datatype Offer = Offer(distributorPartNumber: string, unitCost: Option<real>, minimumOrderQty: int, leadTimeDays: Option<int>)

  /** The table after the call and the id the call returns. */
  datatype Upsert = Upsert(sources: seq<Source>, id: SourceId)

  /** The UPDATE of an existing row: only the part number, cost, minimum
      order quantity, lead time and timestamp change. */
  function Updated(s: Source, o: Offer, now: nat): Source {
    s.(distributorPartNumber := o.distributorPartNumber, unitCost := o.unitCost,
       minimumOrderQty := o.minimumOrderQty, leadTimeDays := o.leadTimeDays, lastUpdated := now)
  }

  /** `add_component_source(c, d, ...)` at time `now`; `newId` is the row id the
      INSERT would be given. */
  function Upserted(sources: seq<Source>, c: ComponentId, d: string, o: Offer, now: nat, newId: SourceId): Upsert {
    match FindSource(sources, c, d)
    case Some(i) => Upsert(sources[i := Updated(sources[i], o, now)], sources[i].id)
    case None =>
      Upsert(sources + [Source(newId, c, d, o.distributorPartNumber, o.unitCost, o.minimumOrderQty, o.leadTimeDays, now)], newId)
  }

  /** After the call the pair's row holds exactly the given values, the
      returned id and the new timestamp. */
  lemma {:induction false} UpsertWrites(sources: seq<Source>, c: ComponentId, d: string, o: Offer, now: nat, newId: SourceId)
    ensures FindSource(Upserted(sources, c, d, o, now, newId).sources, c, d).Some?
    ensures var u := Upserted(sources, c, d, o, now, newId);
      u.sources[FindSource(u.sources, c, d).value]
        == Source(u.id, c, d, o.distributorPartNumber, o.unitCost, o.minimumOrderQty, o.leadTimeDays, now)
  {
    var u := Upserted(sources, c, d, o, now, newId);
    match FindSource(sources, c, d)
    case Some(i) =>
      assert IsFor(u.sources[i], c, d);
      assert forall j :: 0 <= j < i ==> u.sources[j] == sources[j];
      assert FindSource(u.sources, c, d) == Some(i) by {
        var r := FindSource(u.sources, c, d);
        assert r.Some? && r.value <= i;
      }
    case None =>
      var n := |sources|;
      assert IsFor(u.sources[n], c, d);
      assert forall j :: 0 <= j < n ==> u.sources[j] == sources[j];
      assert FindSource(u.sources, c, d) == Some(n) by {
        var r := FindSource(u.sources, c, d);
        assert r.Some? && r.value <= n;
      }
  }

  /** An existing row is updated in place: it keeps its id, pair and position,
      the call returns that id, and no row is added. */
  lemma {:induction false} UpsertUpdatesInPlace(sources: seq<Source>, c: ComponentId, d: string, o: Offer, now: nat, newId: SourceId, i: nat)
    requires FindSource(sources, c, d) == Some(i)
    ensures var u := Upserted(sources, c, d, o, now, newId);
      && |u.sources| == |sources|
      && u.id == sources[i].id
      && u.sources[i].id == sources[i].id
      && SamePair(u.sources[i], sources[i])
  {
  }

  /** Without a row for the pair, one row is appended under the new id. */
  lemma {:induction false} UpsertInserts(sources: seq<Source>, c: ComponentId, d: string, o: Offer, now: nat, newId: SourceId)
    requires FindSource(sources, c, d).None?
    ensures var u := Upserted(sources, c, d, o, now, newId);
      && |u.sources| == |sources| + 1
      && u.sources[..|sources|] == sources
      && u.id == newId
  {
  }

  /** Every row for another pair is left as it was. */
  lemma {:induction false} UpsertLeavesOthers(sources: seq<Source>, c: ComponentId, d: string, o: Offer, now: nat, newId: SourceId)
    ensures var u := Upserted(sources, c, d, o, now, newId);
      forall j :: 0 <= j < |sources| && !IsFor(sources[j], c, d) ==> u.sources[j] == sources[j]
  {
  }

  /** The upsert never creates a second row for a pair. */
  lemma {:induction false} UpsertKeepsOnePerPair(sources: seq<Source>, c: ComponentId, d: string, o: Offer, now: nat, newId: SourceId)
    requires OnePerPair(sources)
    ensures OnePerPair(Upserted(sources, c, d, o, now, newId).sources)
  {
    var u := Upserted(sources, c, d, o, now, newId).sources;
    match FindSource(sources, c, d)
    case Some(i) =>
      forall p, q | 0 <= p < q < |u|
        ensures !SamePair(u[p], u[q])
      {
        assert SamePair(u[p], sources[p]) && SamePair(u[q], sources[q]);
      }
    case None =>
      forall p, q | 0 <= p < q < |u|
        ensures !SamePair(u[p], u[q])
      {
        if q == |sources| {
          assert !IsFor(sources[p], c, d);
        }
      }
  }

  /** Repeating the same call at the same clock reading leaves the same table
      and returns the same id; at a later reading it returns the same id and
      changes only the row's `last_updated`. */
  lemma {:induction false} UpsertTwice(sources: seq<Source>, c: ComponentId, d: string, o: Offer, now: nat, newId: SourceId,
                                       later: nat, laterId: SourceId)
    ensures var u := Upserted(sources, c, d, o, now, newId);
      Upserted(u.sources, c, d, o, now, laterId) == u
    ensures var u := Upserted(sources, c, d, o, now, newId);
      && FindSource(u.sources, c, d).Some?
      && var i := FindSource(u.sources, c, d).value;
         var v := Upserted(u.sources, c, d, o, later, laterId);
         v.id == u.id && v.sources == u.sources[i := u.sources[i].(lastUpdated := later)]
  {
    var u := Upserted(sources, c, d, o, now, newId);
    UpsertWrites(sources, c, d, o, now, newId);
    var i := FindSource(u.sources, c, d).value;
    assert Updated(u.sources[i], o, now) == u.sources[i];
    assert u.sources[i := u.sources[i]] == u.sources;
  }

  // ---------------------------------------------------------------------------
  // Cleanup

  /** Row `j` wins over row `i` of the same pair: it was updated later, or at
      the same time and comes first. */
  predicate Beats(sources: seq<Source>, j: nat, i: nat)
    requires j < |sources| && i < |sources|
  {
    && SamePair(sources[j], sources[i])
    && (sources[j].lastUpdated > sources[i].lastUpdated
        || (sources[j].lastUpdated == sources[i].lastUpdated && j < i))
  }

  /** Row `i` survives the cleanup: no row of its pair wins over it. */
  predicate IsKept(sources: seq<Source>, i: nat)
    requires i < |sources|
  {
    forall j :: 0 <= j < |sources| ==> !Beats(sources, j, i)
  }

  /** The surviving rows among the first `n`, in row order. */
  function KeptPrefix(sources: seq<Source>, n: nat): (r: seq<Source>)
    requires n <= |sources|
    ensures |r| <= n
  {
    if n == 0 then []
    else KeptPrefix(sources, n - 1) + (if IsKept(sources, n - 1) then [sources[n - 1]] else [])
  }

  /** The table after `cleanup_duplicate_sources`. */
  function Deduplicated(sources: seq<Source>): seq<Source> {
    KeptPrefix(sources, |sources|)
  }

  lemma {:induction false} KeptPrefixFrom(sources: seq<Source>, n: nat, x: Source)
    requires n <= |sources| && x in KeptPrefix(sources, n)
    ensures exists i :: 0 <= i < n && IsKept(sources, i) && sources[i] == x
  {
    if x !in KeptPrefix(sources, n - 1) {
      assert IsKept(sources, n - 1) && sources[n - 1] == x;
    } else {
      KeptPrefixFrom(sources, n - 1, x);
    }
  }

  lemma {:induction false} KeptPrefixHas(sources: seq<Source>, n: nat, i: nat)
    requires i < n <= |sources| && IsKept(sources, i)
    ensures sources[i] in KeptPrefix(sources, n)
  {
    if i < n - 1 {
      KeptPrefixHas(sources, n - 1, i);
    }
  }

  /** Of two different rows of one pair, one wins over the other. */
  lemma {:induction false} BeatsTotal(sources: seq<Source>, i: nat, j: nat)
    requires i < |sources| && j < |sources| && i != j
    requires SamePair(sources[i], sources[j])
    ensures Beats(sources, i, j) || Beats(sources, j, i)
  {
  }

  /** Two different surviving rows are never of the same pair. */
  lemma {:induction false} KeptDistinctPairs(sources: seq<Source>, i: nat, j: nat)
    requires i < |sources| && j < |sources| && i != j
    requires IsKept(sources, i) && IsKept(sources, j)
    ensures !SamePair(sources[i], sources[j])
  {
    if SamePair(sources[i], sources[j]) {
      BeatsTotal(sources, i, j);
      assert false;
    }
  }

  lemma {:induction false} KeptPrefixOnePerPair(sources: seq<Source>, n: nat)
    requires n <= |sources|
    ensures OnePerPair(KeptPrefix(sources, n))
  {
    if n > 0 {
      KeptPrefixOnePerPair(sources, n - 1);
      var prev, r := KeptPrefix(sources, n - 1), KeptPrefix(sources, n);
      if IsKept(sources, n - 1) {
        forall p, q | 0 <= p < q < |r|
          ensures !SamePair(r[p], r[q])
        {
          if q == |prev| {
            assert r[p] in prev;
            KeptPrefixFrom(sources, n - 1, r[p]);
            var i :| 0 <= i < n - 1 && IsKept(sources, i) && sources[i] == r[p];
            KeptDistinctPairs(sources, i, n - 1);
          } else {
            assert r[p] == prev[p] && r[q] == prev[q];
          }
        }
      } else {
        assert r == prev;
      }
    }
  }

  /** The row the cleanup keeps for the pair of `sources[i]`, found among the
      first `n` rows (and row `i` itself). */
  function Latest(sources: seq<Source>, i: nat, n: nat): (w: nat)
    requires i < |sources| && n <= |sources|
    ensures w < |sources| && SamePair(sources[w], sources[i])
  {
    if n == 0 then i
    else
      var w := Latest(sources, i, n - 1);
      if Beats(sources, n - 1, w) then n - 1 else w
  }

  lemma {:induction false} BeatsTransitive(sources: seq<Source>, a: nat, b: nat, c: nat)
    requires a < |sources| && b < |sources| && c < |sources|
    requires Beats(sources, a, b) && Beats(sources, b, c)
    ensures Beats(sources, a, c)
  {
  }

  lemma {:induction false} LatestWins(sources: seq<Source>, i: nat, n: nat)
    requires i < |sources| && n <= |sources|
    ensures var w := Latest(sources, i, n);
      && !Beats(sources, i, w)
      && forall j :: 0 <= j < n ==> !Beats(sources, j, w)
  {
    if n > 0 {
      LatestWins(sources, i, n - 1);
      var v, w := Latest(sources, i, n - 1), Latest(sources, i, n);
      if w != v {
        forall j | 0 <= j < n
          ensures !Beats(sources, j, w)
        {
          if Beats(sources, j, w) {
            BeatsTransitive(sources, j, w, v);
          }
        }
        if Beats(sources, i, w) {
          BeatsTransitive(sources, i, w, v);
        }
      }
    }
  }

  /** The cleanup leaves at most one row per pair. */
  lemma {:induction false} DedupOnePerPair(sources: seq<Source>)
    ensures OnePerPair(Deduplicated(sources))
  {
    KeptPrefixOnePerPair(sources, |sources|);
  }

  /** Every row left was in the table, and no pair of the table loses all its
      rows: together with `DedupOnePerPair`, exactly one row per pair. */
  lemma {:induction false} DedupKeepsEveryPair(sources: seq<Source>)
    ensures forall x :: x in Deduplicated(sources) ==> x in sources
    ensures forall i :: 0 <= i < |sources| ==> HasPairOf(Deduplicated(sources), sources[i])
  {
    forall x | x in Deduplicated(sources)
      ensures x in sources
    {
      KeptPrefixFrom(sources, |sources|, x);
      var i :| 0 <= i < |sources| && IsKept(sources, i) && sources[i] == x;
    }
    forall i | 0 <= i < |sources|
      ensures HasPairOf(Deduplicated(sources), sources[i])
    {
      var w := Latest(sources, i, |sources|);
      LatestWins(sources, i, |sources|);
      KeptPrefixHas(sources, |sources|, w);
      assert sources[w] in Deduplicated(sources) && SamePair(sources[w], sources[i]);
    }
  }

  /** The row kept for a pair is its most recently updated one. */
  lemma {:induction false} DedupKeepsLatest(sources: seq<Source>)
    ensures forall x, j :: x in Deduplicated(sources) && 0 <= j < |sources| && SamePair(sources[j], x) ==>
      sources[j].lastUpdated <= x.lastUpdated
  {
    forall x, j | x in Deduplicated(sources) && 0 <= j < |sources| && SamePair(sources[j], x)
      ensures sources[j].lastUpdated <= x.lastUpdated
    {
      KeptPrefixFrom(sources, |sources|, x);
      var i :| 0 <= i < |sources| && IsKept(sources, i) && sources[i] == x;
      assert !Beats(sources, j, i);
    }
  }

  /** A table that already has one row per pair is left unchanged: a second
      cleanup removes nothing. */
  lemma {:induction false} DedupNoDuplicates(sources: seq<Source>)
    requires OnePerPair(sources)
    ensures Deduplicated(sources) == sources
  {
    forall n | 0 <= n <= |sources|
      ensures KeptPrefix(sources, n) == sources[..n]
    {
      KeptPrefixAll(sources, n);
    }
  }

  lemma {:induction false} KeptPrefixAll(sources: seq<Source>, n: nat)
    requires OnePerPair(sources) && n <= |sources|
    ensures KeptPrefix(sources, n) == sources[..n]
  {
    if n > 0 {
      KeptPrefixAll(sources, n - 1);
      forall j | 0 <= j < |sources| && j != n - 1
        ensures !SamePair(sources[j], sources[n - 1])
      {
        if j > n - 1 {
          assert !SamePair(sources[n - 1], sources[j]);
        }
      }
      assert IsKept(sources, n - 1);
      assert sources[..n] == sources[..n - 1] + [sources[n - 1]];
    }
  }

  /** The cleanup is idempotent. */
  lemma {:induction false} DedupIdempotent(sources: seq<Source>)
    ensures Deduplicated(Deduplicated(sources)) == Deduplicated(sources)
  {
    DedupOnePerPair(sources);
    DedupNoDuplicates(Deduplicated(sources));
  }
}
