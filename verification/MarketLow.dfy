/** The seven-day low: which captures it is the minimum of, and when that is the plain
    promise of every capture since the first hour boundary of the window. */
module MarketLow {
  import opened Wrappers
  import opened Downsample
  import opened PriceLog
  import opened MarketHistory
  import opened MarketSeries
  import opened MarketRead

  // ------------------------------------------------------------------- low 7d

  /** The captures the seven-day low looks at: those from the first hour boundary
      in the window on, and those of the partial first hour that raw still holds. */
  ghost predicate Counted(c: Contents, now: int, ts: int)
  {
    || Ceiling(now - SEVEN_DAYS, Hourly) <= ts
    || (now - SEVEN_DAYS <= ts && Horizon(c.rolledAt, RAW_RETENTION) <= ts)
  }

  ghost predicate IsLeastCounted(c: Contents, tpl: int, now: int, v: Option<int>)
  {
    && (v.Some? ==>
          exists ts :: Counted(c, now, ts) && Key(tpl, ts) in c.log && c.log[Key(tpl, ts)].point.minPrice == v)
    && (forall ts :: Counted(c, now, ts) && Key(tpl, ts) in c.log ==> AtMost(v, c.log[Key(tpl, ts)].point.minPrice))
  }

  /** Exactly which captures the low is the minimum of, at every moment and for
      every interleaving of captures, rollups and prunes. */
  lemma Low7dIsExact(c: Contents, tpl: int, now: int, v: Option<int>)
    requires Sound(c) && c.clock <= now && IsLow7d(HourlyTier(c), RawTier(c), tpl, now, v)
    ensures IsLeastCounted(c, tpl, now, v)
  {
    hide *;
    LowIsCounted(c, tpl, now, v);
    LowIsLow(c, tpl, now, v);
    BothHalves(c, tpl, now, v);
  }

  ghost predicate LowAttained(c: Contents, tpl: int, now: int, v: Option<int>)
  {
    v.Some? ==> exists ts :: Counted(c, now, ts) && Key(tpl, ts) in c.log && c.log[Key(tpl, ts)].point.minPrice == v
  }

  ghost predicate LowBelow(c: Contents, tpl: int, now: int, v: Option<int>)
  {
    forall ts :: Counted(c, now, ts) && Key(tpl, ts) in c.log ==> AtMost(v, c.log[Key(tpl, ts)].point.minPrice)
  }

  lemma BothHalves(c: Contents, tpl: int, now: int, v: Option<int>)
    requires LowAttained(c, tpl, now, v) && LowBelow(c, tpl, now, v)
    ensures IsLeastCounted(c, tpl, now, v)
  {
    hide Counted;
  }

  lemma LowIsCounted(c: Contents, tpl: int, now: int, v: Option<int>)
    requires Sound(c) && c.clock <= now && IsLow7d(HourlyTier(c), RawTier(c), tpl, now, v)
    ensures LowAttained(c, tpl, now, v)
  {
    hide Sound, Counted, IsLeastFrom, HourlyTier, RawTier;
    var a, b :| IsLeastFrom(a, HourlyTier(c), tpl, now - SEVEN_DAYS)
                && IsLeastFrom(b, RawTier(c), tpl, now - SEVEN_DAYS)
                && v == LesserOf(a, b);
    if v.Some? {
      if v == b {
        RawLowIsCounted(c, tpl, now, v);
      } else {
        HourLowIsCounted(c, tpl, now, v);
      }
    }
  }

  lemma LowIsLow(c: Contents, tpl: int, now: int, v: Option<int>)
    requires Sound(c) && c.clock <= now && IsLow7d(HourlyTier(c), RawTier(c), tpl, now, v)
    ensures LowBelow(c, tpl, now, v)
  {
    hide Sound, Counted, IsLeastFrom, Horizon, HourlyTier, RawTier, AtMost, LesserOf;
    var a, b :| IsLeastFrom(a, HourlyTier(c), tpl, now - SEVEN_DAYS)
                && IsLeastFrom(b, RawTier(c), tpl, now - SEVEN_DAYS)
                && v == LesserOf(a, b);
    forall ts | Counted(c, now, ts) && Key(tpl, ts) in c.log
      ensures AtMost(v, c.log[Key(tpl, ts)].point.minPrice)
    {
      CountedIsRead(c, tpl, now, ts, a, b);
    }
  }

  lemma RawLowIsCounted(c: Contents, tpl: int, now: int, v: Option<int>)
    requires Sound(c) && v.Some? && IsLeastFrom(v, RawTier(c), tpl, now - SEVEN_DAYS)
    ensures exists ts :: Counted(c, now, ts) && Key(tpl, ts) in c.log && c.log[Key(tpl, ts)].point.minPrice == v
  {
    hide Recompute, LogOk, GrewSince, Ceiling;
    var ts :| now - SEVEN_DAYS <= ts && Key(tpl, ts) in RawTier(c) && RawTier(c)[Key(tpl, ts)].point.minPrice == v;
    assert Counted(c, now, ts) && Key(tpl, ts) in c.log;
  }

  lemma HourLowIsCounted(c: Contents, tpl: int, now: int, v: Option<int>)
    requires Sound(c) && v.Some? && IsLeastFrom(v, HourlyTier(c), tpl, now - SEVEN_DAYS)
    ensures exists ts :: Counted(c, now, ts) && Key(tpl, ts) in c.log && c.log[Key(tpl, ts)].point.minPrice == v
  {
    var from := now - SEVEN_DAYS;
    var h :| from <= h && Key(tpl, h) in HourlyTier(c) && HourlyTier(c)[Key(tpl, h)].point.minPrice == v;
    RolledHourLeast(c, Key(tpl, h));
    hide Recompute, LogOk, FoldRows, Slice, Floor;
    var ts :| h <= ts < h + HOUR && Key(tpl, ts) in c.rolled && c.rolled[Key(tpl, ts)].point.minPrice == v;
    CeilingAtMost(from, h);
    assert Counted(c, now, ts) && Key(tpl, ts) in c.log;
  }

  lemma CeilingAtMost(from: int, h: int)
    requires from <= h && OnGrid(h, Hourly)
    ensures Ceiling(from, Hourly) <= h
  {
    FloorBounds(from, Hourly);
    if Floor(from, Hourly) < h {
      GridApart(Floor(from, Hourly), h, Hourly);
    }
  }

  /** An hourly row carries the true minimum of what had been captured at the last
      rollup. */
  lemma RolledHourLeast(c: Contents, b: Key)
    requires Sound(c) && b in HourlyTier(c)
    ensures OnGrid(b.ts, Hourly)
    ensures IsLeastIn(HourlyTier(c)[b].point.minPrice, c.rolled, b.tpl, b.ts, b.ts + HOUR)
  {
    hide FoldRows, Slice, Horizon, Recompute, IsLeastIn, OnGrid, DailyOf, LogOk, GrewSince;
    RecomputeKeys(c.rolled, b, Hourly, FoldRows);
    RecomputeValue(c.rolled, Hourly, b, FoldRows);
    FoldRowsTotals(Slice(c.rolled, b.tpl, b.ts, b.ts + HOUR));
    SliceLeast(c.rolled, b.tpl, b.ts, b.ts + HOUR);
  }

  /** A counted capture is in raw, or inside an hourly row the low reads. */
  lemma CountedIsRead(c: Contents, tpl: int, now: int, ts: int, a: Option<int>, b: Option<int>)
    requires Sound(c) && c.clock <= now && Counted(c, now, ts) && Key(tpl, ts) in c.log
    requires IsLeastFrom(a, HourlyTier(c), tpl, now - SEVEN_DAYS) && IsLeastFrom(b, RawTier(c), tpl, now - SEVEN_DAYS)
    ensures AtMost(LesserOf(a, b), c.log[Key(tpl, ts)].point.minPrice)
  {
    hide *;
    if ts < Horizon(c.rolledAt, RAW_RETENTION) {
      CountedInHourly(c, tpl, now, ts, a);
    } else {
      CountedInRaw(c, tpl, now, ts, b);
    }
    LesserAtMost(a, b, c.log[Key(tpl, ts)].point.minPrice);
  }

  lemma LesserAtMost(a: Option<int>, b: Option<int>, price: Option<int>)
    requires AtMost(a, price) || AtMost(b, price)
    ensures AtMost(LesserOf(a, b), price)
  {
  }

  lemma CountedInRaw(c: Contents, tpl: int, now: int, ts: int, b: Option<int>)
    requires Sound(c) && Counted(c, now, ts) && Key(tpl, ts) in c.log && Horizon(c.rolledAt, RAW_RETENTION) <= ts
    requires IsLeastFrom(b, RawTier(c), tpl, now - SEVEN_DAYS)
    ensures AtMost(b, c.log[Key(tpl, ts)].point.minPrice)
  {
    CeilingAbove(now - SEVEN_DAYS);
    hide Recompute, LogOk, GrewSince, FoldRows, Slice, Floor, Horizon, Ceiling;
    assert Key(tpl, ts) in RawTier(c) && RawTier(c)[Key(tpl, ts)] == c.log[Key(tpl, ts)];
  }

  lemma CountedInHourly(c: Contents, tpl: int, now: int, ts: int, a: Option<int>)
    requires Sound(c) && c.clock <= now && Counted(c, now, ts) && Key(tpl, ts) in c.log
    requires ts < Horizon(c.rolledAt, RAW_RETENTION) && IsLeastFrom(a, HourlyTier(c), tpl, now - SEVEN_DAYS)
    ensures AtMost(a, c.log[Key(tpl, ts)].point.minPrice)
  {
    hide Recompute, LogOk, GrewSince, FoldRows, Slice, Floor, Sound, Horizon, Ceiling, OnGrid;
    var h := Key(tpl, Floor(ts, Hourly));
    PrunedPointHasHour(c, tpl, now, ts);
    RolledHourLeast(c, h);
    FloorBounds(ts, Hourly);
    assert AtMost(HourlyTier(c)[h].point.minPrice, c.log[Key(tpl, ts)].point.minPrice);
    assert AtMost(a, HourlyTier(c)[h].point.minPrice);
  }

  lemma CeilingAbove(from: int)
    ensures from <= Ceiling(from, Hourly) < from + HOUR
    ensures OnGrid(Ceiling(from, Hourly), Hourly)
  {
    FloorBounds(from, Hourly);
    assert (Floor(from, Hourly) + HOUR) / HOUR == from / HOUR + 1;
  }

  lemma PrunedPointHasHour(c: Contents, tpl: int, now: int, ts: int)
    requires Sound(c) && c.clock <= now && Key(tpl, ts) in c.log
    requires Ceiling(now - SEVEN_DAYS, Hourly) <= ts < Horizon(c.rolledAt, RAW_RETENTION)
    ensures var h := Key(tpl, Floor(ts, Hourly));
            && h in HourlyTier(c) && now - SEVEN_DAYS <= h.ts && Key(tpl, ts) in c.rolled
            && c.rolled[Key(tpl, ts)] == c.log[Key(tpl, ts)]
  {
    var h := Key(tpl, Floor(ts, Hourly));
    CeilingBelow(now - SEVEN_DAYS, ts, Hourly);
    hide FoldRows, Slice, Floor, DailyOf;
    assert Key(tpl, ts) in c.rolled;
    assert Occupied(c.rolled, h, Hourly);
    RecomputeKeys(c.rolled, h, Hourly, FoldRows);
  }

  /** What a store holds is the tiers of its contents. */
  lemma TiersOfContents(s: Store)
    requires s.Valid()
    ensures Sound(s.State()) && s.raw == RawTier(s.State()) && s.hourly == HourlyTier(s.State())
  {
  }

  /** When the promise of the plain seven-day low is kept: the window starts on an
      hour, or at the beginning of time; or raw no longer holds the partial first hour;
      or the last rollup is older than that hour, and so is every capture. */
  predicate KeepsPromise(now: int, rolledAt: Option<int>) {
    var from := now - SEVEN_DAYS;
    || rolledAt.None?
    || Ceiling(from, Hourly) <= Later(Later(from, 0), Horizon(rolledAt, RAW_RETENTION))
    || rolledAt.value < Floor(from, Hourly)
  }

  /** The low is the minimum over every capture from the first hour boundary of the
      seven days to now. */
  ghost predicate IsPlainLow(c: Contents, tpl: int, now: int, v: Option<int>) {
    IsLeastFrom(v, c.log, tpl, Ceiling(now - SEVEN_DAYS, Hourly))
  }

  /** The partial first hour adds nothing to what is counted. */
  lemma NothingPartial(c: Contents, tpl: int, now: int, ts: int)
    requires Sound(c) && HoursRolled(c) && KeepsPromise(now, c.rolledAt)
    requires Counted(c, now, ts) && Key(tpl, ts) in c.log
    ensures Ceiling(now - SEVEN_DAYS, Hourly) <= ts
  {
    var from := now - SEVEN_DAYS;
    CeilingAbove(from);
    FloorBounds(from, Hourly);
    assert 0 <= ts && ts / HOUR <= c.rolledAt.value / HOUR;
    hide GrewSince, LogOk;
  }

  lemma Low7dFromHourBoundary(c: Contents, tpl: int, now: int, v: Option<int>)
    requires Sound(c) && HoursRolled(c) && c.clock <= now && IsLow7d(HourlyTier(c), RawTier(c), tpl, now, v)
    requires KeepsPromise(now, c.rolledAt)
    ensures IsPlainLow(c, tpl, now, v)
  {
    hide *;
    Low7dIsExact(c, tpl, now, v);
    CountedIsPlain(c, tpl, now, v);
  }

  lemma CountedIsPlain(c: Contents, tpl: int, now: int, v: Option<int>)
    requires Sound(c) && HoursRolled(c) && KeepsPromise(now, c.rolledAt) && IsLeastCounted(c, tpl, now, v)
    ensures IsPlainLow(c, tpl, now, v)
  {
    hide Sound, HoursRolled, KeepsPromise, Ceiling, AtMost;
    forall ts | Ceiling(now - SEVEN_DAYS, Hourly) <= ts && Key(tpl, ts) in c.log
      ensures AtMost(v, c.log[Key(tpl, ts)].point.minPrice)
    {
      assert Counted(c, now, ts);
    }
    if v.Some? {
      var ts :| Counted(c, now, ts) && Key(tpl, ts) in c.log && c.log[Key(tpl, ts)].point.minPrice == v;
      NothingPartial(c, tpl, now, ts);
    }
  }

  /** Over every run that has come to this rollup, for every template. */
  ghost predicate PromiseHolds(now: int, rolledAt: Option<int>) {
    forall states, snapshots, tpl, v ::
      IsRun(states, snapshots) && Last(states).clock <= now && Last(states).rolledAt == rolledAt
      && IsLow7d(HourlyTier(Last(states)), RawTier(Last(states)), tpl, now, v) ==>
        IsPlainLow(Last(states), tpl, now, v)
  }

  // ------------------------------------------- runs on which the promise fails

  const FIVE := Point(Some(5), None, None, None)

  /** Everything ever captured is one price. */
  function OneAt(ts: int): Table {
    map[Key(1, ts) := Row(FIVE, 1)]
  }

  function Priced(ts: int): Snapshot {
    Snapshot([Captured(Some(1), FIVE)], ts)
  }

  /** A capture in the partial hour: at the rollup, if that is where the rollup was. */
  function PartialAt(now: int, rolledAt: int): int {
    var from := now - SEVEN_DAYS;
    if from <= rolledAt < Ceiling(from, Hourly) then rolledAt else Ceiling(from, Hourly) - 1
  }

  lemma PricedStep(a: Contents, ts: int)
    requires a.log == map[] && a.templates == {} && a.rolled == map[] && a.clock <= ts
    ensures var kept := HourOf(a.rolledAt) == Some(ts / HOUR);
            Stepped(a, Contents({1}, OneAt(ts), if kept then map[] else OneAt(ts),
                                if kept then a.rolledAt else Some(ts), ts), Priced(ts))
  {
    assert Added(map[], OneAt(ts)) == OneAt(ts);
    assert IsFirst(Priced(ts).rows, 0, 1);
    assert Names(Priced(ts).rows) == {1} by {
      assert Priced(ts).rows[0].tpl.value == 1;
    }
  }

  lemma EmptyStep(a: Contents, ts: int)
    requires a.clock <= ts && HourOf(a.rolledAt) != Some(ts / HOUR)
    ensures Stepped(a, a.(rolled := a.log, rolledAt := Some(ts), clock := ts), Snapshot([], ts))
  {
    assert Added(a.log, a.log) == map[];
    assert Names([]) == {};
  }

  /** The partial hour and the rollup, where the promise is not kept. */
  lemma PartialBounds(now: int, rolledAt: int)
    requires 0 <= rolledAt <= now && !KeepsPromise(now, Some(rolledAt))
    ensures var from, ts := now - SEVEN_DAYS, PartialAt(now, rolledAt);
            && 0 <= from <= ts < Ceiling(from, Hourly) && rolledAt - RAW_RETENTION <= ts <= now
            && (ts != rolledAt ==> if rolledAt < ts then rolledAt / HOUR == ts / HOUR else rolledAt / HOUR > ts / HOUR)
  {
    var from := now - SEVEN_DAYS;
    CeilingAbove(from);
    FloorBounds(from, Hourly);
    assert Ceiling(from, Hourly) / HOUR == from / HOUR + 1;
  }

  /** A run of captures that ends at the given rollup with one price, in the partial
      hour. */
  lemma PartialRun(now: int, rolledAt: int) returns (states: seq<Contents>, snapshots: seq<Snapshot>)
    requires 0 <= rolledAt <= now && !KeepsPromise(now, Some(rolledAt))
    ensures IsRun(states, snapshots) && Last(states).clock <= now && Last(states).rolledAt == Some(rolledAt)
    ensures Last(states).log == OneAt(PartialAt(now, rolledAt))
  {
    PartialBounds(now, rolledAt);
    var ts := PartialAt(now, rolledAt);
    hide Stepped, KeepsPromise, PartialAt;
    assert IsRun([EMPTY], []);
    if rolledAt < ts {
      EmptyStep(EMPTY, rolledAt);
      var a := EMPTY.(rolled := map[], rolledAt := Some(rolledAt), clock := rolledAt);
      PricedStep(a, ts);
      states := [EMPTY, a, Contents({1}, OneAt(ts), map[], Some(rolledAt), ts)];
      snapshots := [Snapshot([], rolledAt), Priced(ts)];
    } else {
      PricedStep(EMPTY, ts);
      var a := Contents({1}, OneAt(ts), OneAt(ts), Some(ts), ts);
      if ts == rolledAt {
        states, snapshots := [EMPTY, a], [Priced(ts)];
      } else {
        EmptyStep(a, rolledAt);
        states := [EMPTY, a, a.(rolled := OneAt(ts), rolledAt := Some(rolledAt), clock := rolledAt)];
        snapshots := [Priced(ts), Snapshot([], rolledAt)];
      }
    }
  }

  lemma {:induction false} LeastExists(m: Table, tpl: int, from: int) returns (v: Option<int>)
    ensures IsLeastFrom(v, m, tpl, from)
    decreases |m|
  {
    if m == map[] {
      v := None;
    } else {
      var k :| k in m;
      var rest := m - {k};
      v := LeastExists(rest, tpl, from);
      assert forall j :: j in m ==> j == k || (j in rest && rest[j] == m[j]);
      if k.tpl == tpl && from <= k.ts {
        assert k == Key(tpl, k.ts);
        v := LesserOf(v, m[k].point.minPrice);
      }
    }
  }

  /** The low reports the price of the partial hour, and no capture lies past it. */
  lemma PartialIsLow(c: Contents, now: int, ts: int) returns (v: Option<int>)
    requires Sound(c) && c.clock <= now && c.log == OneAt(ts)
    requires now - SEVEN_DAYS <= ts < Ceiling(now - SEVEN_DAYS, Hourly) && Horizon(c.rolledAt, RAW_RETENTION) <= ts
    ensures IsLow7d(HourlyTier(c), RawTier(c), 1, now, v) && !IsPlainLow(c, 1, now, v)
  {
    hide Sound, HourlyTier, RawTier;
    var a := LeastExists(HourlyTier(c), 1, now - SEVEN_DAYS);
    var b := LeastExists(RawTier(c), 1, now - SEVEN_DAYS);
    v := LesserOf(a, b);
    assert IsLow7d(HourlyTier(c), RawTier(c), 1, now, v);
    Low7dIsExact(c, 1, now, v);
    hide IsLow7d, Ceiling;
    assert Counted(c, now, ts) && Key(1, ts) in c.log;
  }

  /** Over all runs, the low is the minimum over every capture from the first hour
      boundary on exactly when its condition, on the clock and the last rollup, holds. */
  lemma LowIsPlainIffKept(now: int, rolledAt: Option<int>)
    requires rolledAt.Some? ==> 0 <= rolledAt.value <= now
    ensures PromiseHolds(now, rolledAt) <==> KeepsPromise(now, rolledAt)
  {
    hide KeepsPromise, IsLow7d, IsPlainLow, Sound, HoursRolled, HourlyTier, RawTier, IsRun;
    if KeepsPromise(now, rolledAt) {
      forall states, snapshots, tpl, v |
        IsRun(states, snapshots) && Last(states).clock <= now && Last(states).rolledAt == rolledAt
        && IsLow7d(HourlyTier(Last(states)), RawTier(Last(states)), tpl, now, v)
        ensures IsPlainLow(Last(states), tpl, now, v)
      {
        RunIsSound(states, snapshots);
        Low7dFromHourBoundary(Last(states), tpl, now, v);
      }
    } else {
      NoneKeeps(now);
      var states, snapshots := PartialRun(now, rolledAt.value);
      RunIsSound(states, snapshots);
      PartialBounds(now, rolledAt.value);
      var v := PartialIsLow(Last(states), now, PartialAt(now, rolledAt.value));
    }
  }

  lemma NoneKeeps(now: int)
    ensures KeepsPromise(now, None)
  {
  }

  /** The shortest failure: a price in the partial hour, nothing after it, and no
      rollup since. The reader reports the price. */
  method StaleLowCountsPartialHour() returns (s: Store, r: Series)
    ensures s.Traced() && s.clock <= SEVEN_DAYS + 50 && s.rolledAt == Some(100)
    ensures IsLow7d(s.hourly, s.raw, 1, SEVEN_DAYS + 50, r.low7d) && r.low7d == Some(5)
    ensures !IsPlainLow(s.State(), 1, SEVEN_DAYS + 50, r.low7d)
  {
    hide Store.TiersOk, Apart, Served, IsLow7d, IsLeastCounted, Stepped;
    s := new Store();
    var _ := s.Capture([Captured(Some(1), FIVE)], 100);
    OneCapture(s.State());
    r := History(s, Some(1), true, None, SEVEN_DAYS + 50);
    TiersOfContents(s);
    Low7dIsExact(s.State(), 1, SEVEN_DAYS + 50, r.low7d);
    OnlyPartialHour(s.State(), r.low7d);
  }

  lemma OneCapture(c: Contents)
    requires Stepped(EMPTY, c, Priced(100))
    ensures c.log == OneAt(100) && c.rolledAt == Some(100) && c.clock == 100 && 1 in c.templates
  {
    assert Added(map[], c.log) == c.log;
    assert Priced(100).rows[0].tpl.value !in RecentIn(map[], 100);
    assert Priced(100).rows[0].tpl.value in Names(Priced(100).rows);
    assert Key(1, 100) in c.log;
    forall k | k in c.log ensures k == Key(1, 100) && c.log[k] == Row(FIVE, 1) {
      var i :| IsFirst(Priced(100).rows, i, k.tpl) && c.log[k] == Row(Priced(100).rows[i].point, 1);
    }
  }

  lemma OnlyPartialHour(c: Contents, v: Option<int>)
    requires c.rolledAt == Some(100) && c.log == OneAt(100) && IsLeastCounted(c, 1, SEVEN_DAYS + 50, v)
    ensures v == Some(5) && !IsPlainLow(c, 1, SEVEN_DAYS + 50, v)
  {
    assert SEVEN_DAYS + 50 - SEVEN_DAYS == 50;
    assert Counted(c, SEVEN_DAYS + 50, 100);
    assert Key(1, 100) in c.log;
  }
}
