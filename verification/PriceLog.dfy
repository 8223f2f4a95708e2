/** What the tiers mean. A table is a finite map from (template, timestamp) to a
    row; `Recompute(log, g)` is the full recompute of a coarser tier from a flat
    log, the simple thing the incremental tiers have to agree with. */
module PriceLog {
  import opened Wrappers
  import opened Downsample

  const HOUR := 3600
  const DAY := 86400
  const MIN_INTERVAL := 600

  datatype Key = Key(tpl: int, ts: int)

  type Table = map<Key, Row>

  /** How a bucket becomes a row. Everything about the tiers holds for any fold. */
  type Fold = seq<Row> -> Row

  /** The two bucket widths. */
  datatype Grain = Hourly | Daily

  function Width(g: Grain): int {
    match g case Hourly => HOUR case Daily => DAY
  }

  /** Start of the bucket a moment falls in. */
  function Floor(ts: int, g: Grain): int {
    match g case Hourly => ts / HOUR * HOUR case Daily => ts / DAY * DAY
  }

  predicate OnGrid(ts: int, g: Grain) {
    Floor(ts, g) == ts
  }

  lemma FloorBounds(ts: int, g: Grain)
    ensures Floor(ts, g) <= ts < Floor(ts, g) + Width(g)
    ensures OnGrid(Floor(ts, g), g)
  {
    match g
    case Hourly => assert (ts / HOUR * HOUR) / HOUR == ts / HOUR;
    case Daily => assert (ts / DAY * DAY) / DAY == ts / DAY;
  }

  lemma FloorMonotone(a: int, b: int, g: Grain)
    requires a <= b
    ensures Floor(a, g) <= Floor(b, g)
  {
    match g
    case Hourly => assert a / HOUR <= b / HOUR;
    case Daily => assert a / DAY <= b / DAY;
  }

  /** Two different bucket starts are at least a bucket apart. */
  lemma GridApart(a: int, b: int, g: Grain)
    requires OnGrid(a, g) && OnGrid(b, g) && a < b
    ensures a + Width(g) <= b
    ensures OnGrid(b - Width(g), g)
  {
    match g
    case Hourly => assert a / HOUR < b / HOUR; assert (b - HOUR) / HOUR == b / HOUR - 1;
    case Daily => assert a / DAY < b / DAY; assert (b - DAY) / DAY == b / DAY - 1;
  }

  lemma FloorUnique(ts: int, b: int, g: Grain)
    requires OnGrid(b, g) && b <= ts < b + Width(g)
    ensures Floor(ts, g) == b
  {
  }

  // ----------------------------------------------------------------- slices

  /** The rows of one template with lo <= ts < hi, oldest first. */
  ghost function Slice(m: Table, tpl: int, lo: int, hi: int): seq<Row>
    decreases hi - lo
  {
    if hi <= lo then [] else Slice(m, tpl, lo, hi - 1) + At(m, Key(tpl, hi - 1))
  }

  function At(m: Table, k: Key): seq<Row> {
    if k in m then [m[k]] else []
  }

  ghost predicate AgreeOn(m: Table, m': Table, tpl: int, lo: int, hi: int) {
    forall ts :: lo <= ts < hi ==> At(m, Key(tpl, ts)) == At(m', Key(tpl, ts))
  }

  lemma {:induction false} SliceAgree(m: Table, m': Table, tpl: int, lo: int, hi: int)
    requires AgreeOn(m, m', tpl, lo, hi)
    ensures Slice(m, tpl, lo, hi) == Slice(m', tpl, lo, hi)
    decreases hi - lo
  {
    if lo < hi {
      SliceAgree(m, m', tpl, lo, hi - 1);
      assert At(m, Key(tpl, hi - 1)) == At(m', Key(tpl, hi - 1));
    }
  }

  lemma {:induction false} SliceConcat(m: Table, tpl: int, lo: int, mid: int, hi: int)
    requires lo <= mid <= hi
    ensures Slice(m, tpl, lo, hi) == Slice(m, tpl, lo, mid) + Slice(m, tpl, mid, hi)
    decreases hi - mid
  {
    if mid < hi {
      SliceConcat(m, tpl, lo, mid, hi - 1);
      assert Slice(m, tpl, lo, hi) == Slice(m, tpl, lo, hi - 1) + At(m, Key(tpl, hi - 1));
      assert Slice(m, tpl, mid, hi) == Slice(m, tpl, mid, hi - 1) + At(m, Key(tpl, hi - 1));
    } else {
      assert Slice(m, tpl, mid, hi) == [];
    }
  }

  lemma {:induction false} SliceNone(m: Table, tpl: int, lo: int, hi: int)
    requires forall ts :: lo <= ts < hi ==> At(m, Key(tpl, ts)) == []
    ensures Slice(m, tpl, lo, hi) == []
    decreases hi - lo
  {
    if lo < hi {
      SliceNone(m, tpl, lo, hi - 1);
      assert At(m, Key(tpl, hi - 1)) == [];
    }
  }

  /** A slice around one stamp. */
  lemma SliceAround(m: Table, tpl: int, lo: int, ts: int, hi: int)
    requires lo <= ts < hi
    ensures Slice(m, tpl, lo, hi) == Slice(m, tpl, lo, ts) + At(m, Key(tpl, ts)) + Slice(m, tpl, ts + 1, hi)
  {
    SliceConcat(m, tpl, lo, ts + 1, hi);
    assert Slice(m, tpl, lo, ts + 1) == Slice(m, tpl, lo, ts) + At(m, Key(tpl, ts));
  }

  /** A new row joins exactly the slices around its stamp. */
  lemma SliceInsert(m: Table, k: Key, r: Row, tpl: int, lo: int, hi: int)
    requires k !in m
    ensures multiset(Slice(m[k := r], tpl, lo, hi)) ==
            if k.tpl == tpl && lo <= k.ts < hi
            then multiset(Slice(m, tpl, lo, hi)) + multiset{r} else multiset(Slice(m, tpl, lo, hi))
  {
    if k.tpl == tpl && lo <= k.ts < hi {
      SliceInsertAt(m, k, r, lo, hi);
      hide Slice;
      var before, after := Slice(m, tpl, lo, k.ts), Slice(m, tpl, k.ts + 1, hi);
      assert multiset(before + [r] + after) == multiset(before + after) + multiset{r};
    } else {
      SliceAgree(m, m[k := r], tpl, lo, hi);
    }
  }

  lemma SliceInsertAt(m: Table, k: Key, r: Row, lo: int, hi: int)
    requires k !in m && lo <= k.ts < hi
    ensures Slice(m, k.tpl, lo, hi) == Slice(m, k.tpl, lo, k.ts) + Slice(m, k.tpl, k.ts + 1, hi)
    ensures Slice(m[k := r], k.tpl, lo, hi) == Slice(m, k.tpl, lo, k.ts) + [r] + Slice(m, k.tpl, k.ts + 1, hi)
  {
    hide Slice;
    SliceAround(m, k.tpl, lo, k.ts, hi);
    SliceAround(m[k := r], k.tpl, lo, k.ts, hi);
    SliceAgree(m, m[k := r], k.tpl, lo, k.ts);
    SliceAgree(m, m[k := r], k.tpl, k.ts + 1, hi);
  }

  // ----------------------------------------------------------- full recompute

  function BucketOf(k: Key, g: Grain): Key
  {
    Key(k.tpl, Floor(k.ts, g))
  }

  ghost function BucketKeys(m: Table, g: Grain): set<Key>
  {
    set k | k in m :: BucketOf(k, g)
  }

  /** The fold of every row of m in bucket b. */
  ghost function BucketRow(m: Table, b: Key, g: Grain, fold: Fold): Row {
    fold(Slice(m, b.tpl, b.ts, b.ts + Width(g)))
  }

  /** One row per (template, bucket) that holds at least one row of m: the fold of
      all of them. */
  ghost function Recompute(m: Table, g: Grain, fold: Fold): Table
  {
    map b | b in BucketKeys(m, g) :: BucketRow(m, b, g, fold)
  }

  ghost predicate Occupied(m: Table, b: Key, g: Grain) {
    exists ts :: b.ts <= ts < b.ts + Width(g) && Key(b.tpl, ts) in m
  }

  /** The rows stamped at or after `from`. */
  function Since(m: Table, from: int): Table {
    map k | k in m && k.ts >= from :: m[k]
  }

  ghost predicate AgreeBelow(m: Table, m': Table, f: int) {
    forall k: Key :: k.ts < f ==> (k in m <==> k in m') && (k in m ==> m[k] == m'[k])
  }

  lemma RecomputeKeys(m: Table, b: Key, g: Grain, fold: Fold)
    ensures b in Recompute(m, g, fold) <==> OnGrid(b.ts, g) && Occupied(m, b, g)
  {
    if b in Recompute(m, g, fold) {
      var k :| k in m && BucketOf(k, g) == b;
      FloorBounds(k.ts, g);
      assert Key(b.tpl, k.ts) in m;
    }
    if OnGrid(b.ts, g) && Occupied(m, b, g) {
      var ts :| b.ts <= ts < b.ts + Width(g) && Key(b.tpl, ts) in m;
      FloorUnique(ts, b.ts, g);
      assert BucketOf(Key(b.tpl, ts), g) == b;
    }
  }

  lemma RecomputeValue(m: Table, g: Grain, b: Key, fold: Fold)
    requires b in Recompute(m, g, fold)
    ensures Recompute(m, g, fold)[b] == fold(Slice(m, b.tpl, b.ts, b.ts + Width(g)))
  {
  }

  /** A rollup row depends only on the rows of its own bucket. */
  lemma RecomputeLocal(m: Table, m': Table, b: Key, g: Grain, fold: Fold)
    requires AgreeOn(m, m', b.tpl, b.ts, b.ts + Width(g))
    ensures b in Recompute(m, g, fold) <==> b in Recompute(m', g, fold)
    ensures b in Recompute(m, g, fold) ==> Recompute(m, g, fold)[b] == Recompute(m', g, fold)[b]
  {
    RecomputeKeys(m, b, g, fold);
    RecomputeKeys(m', b, g, fold);
    assert Occupied(m, b, g) <==> Occupied(m', b, g);
    SliceAgree(m, m', b.tpl, b.ts, b.ts + Width(g));
    BucketRowOfSlice(m, m', b, g, fold);
  }

  lemma BucketRowOfSlice(m: Table, m': Table, b: Key, g: Grain, fold: Fold)
    requires Slice(m, b.tpl, b.ts, b.ts + Width(g)) == Slice(m', b.tpl, b.ts, b.ts + Width(g))
    ensures BucketRow(m, b, g, fold) == BucketRow(m', b, g, fold)
  {
  }

  /** Below an aligned boundary a rollup only depends on the rows below it. */
  lemma RecomputeAgreeBelow(m: Table, m': Table, g: Grain, f: int, fold: Fold)
    requires OnGrid(f, g) && AgreeBelow(m, m', f)
    ensures AgreeBelow(Recompute(m, g, fold), Recompute(m', g, fold), f)
  {
    forall b: Key | b.ts < f
      ensures b in Recompute(m, g, fold) <==> b in Recompute(m', g, fold)
      ensures b in Recompute(m, g, fold) ==> Recompute(m, g, fold)[b] == Recompute(m', g, fold)[b]
    {
      if OnGrid(b.ts, g) {
        GridApart(b.ts, f, g);
        RecomputeLocal(m, m', b, g, fold);
      } else {
        RecomputeKeys(m, b, g, fold);
        RecomputeKeys(m', b, g, fold);
      }
    }
  }

  /** Reading only the rows past an aligned boundary recomputes exactly the
      buckets past it. */
  lemma RecomputeSince(m: Table, g: Grain, f: int, fold: Fold)
    requires OnGrid(f, g)
    ensures Recompute(Since(m, f), g, fold) == Since(Recompute(m, g, fold), f)
  {
    var part, whole := Recompute(Since(m, f), g, fold), Recompute(m, g, fold);
    forall b: Key
      ensures b in part <==> b in whole && b.ts >= f
      ensures b in part ==> part[b] == whole[b]
    {
      RecomputeSinceAt(m, g, f, b, fold);
    }
    SinceIs(part, whole, f);
  }

  lemma SinceIs(part: Table, whole: Table, f: int)
    requires forall b :: b in part <==> b in whole && b.ts >= f
    requires forall b :: b in part ==> part[b] == whole[b]
    ensures part == Since(whole, f)
  {
  }

  lemma RecomputeSinceAt(m: Table, g: Grain, f: int, b: Key, fold: Fold)
    requires OnGrid(f, g)
    ensures b in Recompute(Since(m, f), g, fold) <==> b in Recompute(m, g, fold) && b.ts >= f
    ensures b in Recompute(Since(m, f), g, fold) ==> Recompute(Since(m, f), g, fold)[b] == Recompute(m, g, fold)[b]
  {
    if b.ts >= f {
      RecomputeLocal(Since(m, f), m, b, g, fold);
    } else {
      RecomputeKeys(Since(m, f), b, g, fold);
      if OnGrid(b.ts, g) {
        GridApart(b.ts, f, g);
      }
    }
  }

  /** The step at the heart of the incremental tiers. The log grew from m to m',
      only at or after f. Replacing the buckets from f on by their recompute, in a
      table that had dropped everything before `from`, gives the full recompute
      with everything before `from` dropped. */
  lemma Refresh(m: Table, m': Table, g: Grain, f: int, from: int, fold: Fold)
    requires OnGrid(f, g) && from <= f
    requires AgreeBelow(m, m', f) && m.Keys <= m'.Keys
    ensures Since(Recompute(m, g, fold), from) + Since(Recompute(m', g, fold), f) == Since(Recompute(m', g, fold), from)
  {
    RecomputeAgreeBelow(m, m', g, f, fold);
    RecomputeGrows(m, m', g, fold);
    Overlay(Recompute(m, g, fold), Recompute(m', g, fold), f, from);
  }

  lemma RecomputeGrows(m: Table, m': Table, g: Grain, fold: Fold)
    requires m.Keys <= m'.Keys
    ensures Recompute(m, g, fold).Keys <= Recompute(m', g, fold).Keys
  {
    assert BucketKeys(m, g) <= BucketKeys(m', g);
  }

  lemma Overlay(r: Table, r': Table, f: int, from: int)
    requires AgreeBelow(r, r', f) && r.Keys <= r'.Keys && from <= f
    ensures Since(r, from) + Since(r', f) == Since(r', from)
  {
  }

  lemma SinceSince(m: Table, a: int, b: int)
    requires a <= b
    ensures Since(Since(m, a), b) == Since(m, b)
  {
  }

  // -------------------------------------------------------------- conservation

  /** A fold whose row stands for its bucket: same sample count, same minimum. */
  ghost predicate KeepsTotals(fold: Fold) {
    forall rows :: fold(rows).samples == Samples(rows) && fold(rows).point.minPrice == LeastPrice(rows)
  }

  lemma FoldRowsKeepsTotals()
    ensures KeepsTotals(FoldRows)
  {
    forall rows
      ensures FoldRows(rows).samples == Samples(rows) && FoldRows(rows).point.minPrice == LeastPrice(rows)
    {
      FoldRowsTotals(rows);
    }
  }

  ghost predicate SameTotals(a: seq<Row>, b: seq<Row>) {
    Samples(a) == Samples(b) && LeastPrice(a) == LeastPrice(b)
  }

  lemma SameTotalsConcat(a: seq<Row>, b: seq<Row>, a': seq<Row>, b': seq<Row>)
    requires SameTotals(a, a') && SameTotals(b, b')
    ensures SameTotals(a + b, a' + b')
  {
    TotalsConcat(a, b);
    TotalsConcat(a', b');
  }

  lemma TotalsOfOne(r: Row)
    ensures Samples([r]) == r.samples && LeastPrice([r]) == r.point.minPrice
  {
    assert [r][..0] == [];
    assert LesserOf(None, r.point.minPrice) == r.point.minPrice;
  }

  /** Inside one bucket a rollup has a row at the bucket's start or nowhere. */
  lemma RecomputeReadBack(m: Table, g: Grain, b: Key, fold: Fold)
    requires OnGrid(b.ts, g)
    ensures Slice(Recompute(m, g, fold), b.tpl, b.ts, b.ts + Width(g)) == At(Recompute(m, g, fold), b)
  {
    var r := Recompute(m, g, fold);
    forall ts | b.ts + 1 <= ts < b.ts + Width(g)
      ensures At(r, Key(b.tpl, ts)) == []
    {
      RecomputeKeys(m, Key(b.tpl, ts), g, fold);
      if OnGrid(ts, g) {
        GridApart(b.ts, ts, g);
      }
    }
    SliceAround(r, b.tpl, b.ts, b.ts, b.ts + Width(g));
    SliceNone(r, b.tpl, b.ts + 1, b.ts + Width(g));
    assert Slice(r, b.tpl, b.ts, b.ts) == [];
  }

  /** One bucket of the rollup, read back at full resolution. */
  lemma RecomputeChunk(m: Table, g: Grain, b: Key, fold: Fold)
    requires KeepsTotals(fold)
    requires OnGrid(b.ts, g)
    ensures SameTotals(Slice(Recompute(m, g, fold), b.tpl, b.ts, b.ts + Width(g)),
                       Slice(m, b.tpl, b.ts, b.ts + Width(g)))
  {
    hide Slice;
    var whole := Slice(m, b.tpl, b.ts, b.ts + Width(g));
    RecomputeReadBack(m, g, b, fold);
    RecomputeKeys(m, b, g, fold);
    if b in Recompute(m, g, fold) {
      TotalsOfOne(fold(whole));
    } else {
      SliceNone(m, b.tpl, b.ts, b.ts + Width(g));
    }
  }

  /** Conservation through one fold, over any aligned stretch: no sample is lost
      or counted twice, and the minimum survives. */
  lemma {:induction false} RecomputeConserves(m: Table, g: Grain, tpl: int, lo: int, hi: int, fold: Fold)
    requires KeepsTotals(fold)
    requires OnGrid(lo, g) && OnGrid(hi, g) && lo <= hi
    ensures SameTotals(Slice(Recompute(m, g, fold), tpl, lo, hi), Slice(m, tpl, lo, hi))
    decreases hi - lo
  {
    if lo < hi {
      var mid := hi - Width(g);
      GridApart(lo, hi, g);
      RecomputeConserves(m, g, tpl, lo, mid, fold);
      RecomputeChunk(m, g, Key(tpl, mid), fold);
      SliceConcat(m, tpl, lo, mid, hi);
      SliceConcat(Recompute(m, g, fold), tpl, lo, mid, hi);
      SameTotalsConcat(Slice(Recompute(m, g, fold), tpl, lo, mid), Slice(Recompute(m, g, fold), tpl, mid, hi),
                       Slice(m, tpl, lo, mid), Slice(m, tpl, mid, hi));
    }
  }

  /** The stamps of one template's rows in a stretch. */
  ghost function Stamps(m: Table, tpl: int, lo: int, hi: int): set<int> {
    set k | k in m && k.tpl == tpl && lo <= k.ts < hi :: k.ts
  }

  ghost predicate AllRaw(m: Table) {
    forall k :: k in m ==> m[k].samples == 1
  }

  lemma SamplesStep(m: Table, tpl: int, lo: int, hi: int)
    requires lo < hi
    ensures Samples(Slice(m, tpl, lo, hi)) == Samples(Slice(m, tpl, lo, hi - 1)) + Samples(At(m, Key(tpl, hi - 1)))
    ensures LeastPrice(Slice(m, tpl, lo, hi)) ==
            LesserOf(LeastPrice(Slice(m, tpl, lo, hi - 1)), LeastPrice(At(m, Key(tpl, hi - 1))))
    ensures Key(tpl, hi - 1) in m ==> Samples(At(m, Key(tpl, hi - 1))) == m[Key(tpl, hi - 1)].samples
    ensures Key(tpl, hi - 1) in m ==> LeastPrice(At(m, Key(tpl, hi - 1))) == m[Key(tpl, hi - 1)].point.minPrice
  {
    TotalsConcat(Slice(m, tpl, lo, hi - 1), At(m, Key(tpl, hi - 1)));
    if Key(tpl, hi - 1) in m {
      TotalsOfOne(m[Key(tpl, hi - 1)]);
    }
  }

  /** Over raw rows the sample total is the number of rows. */
  lemma {:induction false} SamplesCountRows(m: Table, tpl: int, lo: int, hi: int)
    requires AllRaw(m)
    ensures Samples(Slice(m, tpl, lo, hi)) == |Stamps(m, tpl, lo, hi)|
    decreases hi - lo
  {
    if hi <= lo {
      assert Stamps(m, tpl, lo, hi) == {};
    } else {
      SamplesCountRows(m, tpl, lo, hi - 1);
      SamplesStep(m, tpl, lo, hi);
      if Key(tpl, hi - 1) in m {
        assert Stamps(m, tpl, lo, hi) == Stamps(m, tpl, lo, hi - 1) + {hi - 1};
      } else {
        assert Stamps(m, tpl, lo, hi) == Stamps(m, tpl, lo, hi - 1);
      }
    }
  }

  /** v is the least price of one template in a stretch, None when none is priced. */
  ghost predicate IsLeastIn(v: Option<int>, m: Table, tpl: int, lo: int, hi: int) {
    && (v.Some? ==> exists ts :: lo <= ts < hi && Key(tpl, ts) in m && m[Key(tpl, ts)].point.minPrice == v)
    && (forall ts :: lo <= ts < hi && Key(tpl, ts) in m ==> AtMost(v, m[Key(tpl, ts)].point.minPrice))
  }

  predicate AtMost(v: Option<int>, price: Option<int>) {
    price.Some? ==> v.Some? && v.value <= price.value
  }

  lemma {:induction false} SliceLeast(m: Table, tpl: int, lo: int, hi: int)
    ensures IsLeastIn(LeastPrice(Slice(m, tpl, lo, hi)), m, tpl, lo, hi)
    decreases hi - lo
  {
    if lo < hi {
      var k := Key(tpl, hi - 1);
      SliceLeast(m, tpl, lo, hi - 1);
      SamplesStep(m, tpl, lo, hi);
      LeastExtend(m, tpl, lo, hi, LeastPrice(Slice(m, tpl, lo, hi - 1)), if k in m then m[k].point.minPrice else None);
    }
  }

  lemma LeastExtend(m: Table, tpl: int, lo: int, hi: int, before: Option<int>, price: Option<int>)
    requires lo < hi && IsLeastIn(before, m, tpl, lo, hi - 1)
    requires price == if Key(tpl, hi - 1) in m then m[Key(tpl, hi - 1)].point.minPrice else None
    ensures IsLeastIn(LesserOf(before, price), m, tpl, lo, hi)
  {
    var v := LesserOf(before, price);
    if v.Some? {
      if v == price {
        assert lo <= hi - 1 < hi && m[Key(tpl, hi - 1)].point.minPrice == v;
      } else {
        var ts :| lo <= ts < hi - 1 && Key(tpl, ts) in m && m[Key(tpl, ts)].point.minPrice == before;
        assert lo <= ts < hi && m[Key(tpl, ts)].point.minPrice == v;
      }
    }
    forall ts | lo <= ts < hi && Key(tpl, ts) in m
      ensures AtMost(v, m[Key(tpl, ts)].point.minPrice)
    {
      if ts < hi - 1 {
        assert AtMost(before, m[Key(tpl, ts)].point.minPrice);
      }
    }
  }

  // ---------------------------------------------------------------- throttle

  /** Stored stamps of one template are more than MIN_INTERVAL seconds apart. */
  ghost predicate Spaced(m: Table) {
    forall k, k' :: k in m && k' in m && k.tpl == k'.tpl && k.ts < k'.ts ==> k'.ts - k.ts > MIN_INTERVAL
  }

  /** A stretch of n seconds holds at most (n + 600) / 601 captures. */
  lemma {:induction false} SpacedBound(m: Table, tpl: int, lo: int, hi: int)
    requires Spaced(m) && AllRaw(m) && lo <= hi
    ensures Samples(Slice(m, tpl, lo, hi)) * (MIN_INTERVAL + 1) <= hi - lo + MIN_INTERVAL
    decreases hi - lo
  {
    if lo < hi {
      if Key(tpl, hi - 1) in m {
        var mid := if hi - 1 - MIN_INTERVAL < lo then lo else hi - 1 - MIN_INTERVAL;
        SpacedBound(m, tpl, lo, mid);
        SpacedLast(m, tpl, lo, mid, hi);
      } else {
        SpacedBound(m, tpl, lo, hi - 1);
        SamplesStep(m, tpl, lo, hi);
      }
    }
  }

  lemma SpacedLast(m: Table, tpl: int, lo: int, mid: int, hi: int)
    requires Spaced(m) && AllRaw(m)
    requires lo <= mid <= hi - 1 && hi - 1 - MIN_INTERVAL <= mid && Key(tpl, hi - 1) in m
    ensures Samples(Slice(m, tpl, lo, hi)) == Samples(Slice(m, tpl, lo, mid)) + 1
  {
    var last := Key(tpl, hi - 1);
    forall ts | mid <= ts < hi - 1
      ensures At(m, Key(tpl, ts)) == []
    {
      assert Key(tpl, ts) in m ==> last.ts - Key(tpl, ts).ts > MIN_INTERVAL;
    }
    SliceNone(m, tpl, mid, hi - 1);
    SliceConcat(m, tpl, lo, mid, hi - 1);
    assert Slice(m, tpl, lo, hi - 1) == Slice(m, tpl, lo, mid);
    SamplesStep(m, tpl, lo, hi);
  }
}
