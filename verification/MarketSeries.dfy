/** Reading the tiered history back: what each tier holds in terms of the flat
    log, and the one series that is stitched from the three tiers. */
module MarketSeries {
  import opened Wrappers
  import opened Downsample
  import opened PriceLog
  import opened MarketHistory

  const DEFAULT_DAYS := 21
  const SEVEN_DAYS := 7 * DAY

  // --------------------------------------------------- the tiers and the log

  /** Hours below this boundary were complete at the last rollup. */
  ghost function Closed(rolledAt: Option<int>): int {
    if rolledAt.None? then 0 else Floor(rolledAt.value, Hourly)
  }

  lemma ClosedPartSettled(rolled: Table, log: Table, templates: set<int>, clock: int, rolledAt: Option<int>)
    requires LogOk(log, templates, clock) && GrewSince(rolled, log, rolledAt)
    ensures AgreeBelow(rolled, log, Closed(rolledAt)) && OnGrid(Closed(rolledAt), Hourly)
  {
    if rolledAt.Some? {
      FloorBounds(rolledAt.value, Hourly);
    }
  }

  /** Incremental equals full recompute: a retained hour before the last rollup's
      hour has a row exactly when a point was ever captured in it, and the row is
      the fold of every point ever captured in it. */
  lemma ClosedHourIsExact(s: Store, b: Key)
    requires s.Valid() && OnGrid(b.ts, Hourly)
    requires Horizon(s.rolledAt, HOURLY_RETENTION) <= b.ts && b.ts + HOUR <= Closed(s.rolledAt)
    ensures b in s.hourly <==> Occupied(s.log, b, Hourly)
    ensures b in s.hourly ==> s.hourly[b] == FoldRows(Slice(s.log, b.tpl, b.ts, b.ts + HOUR))
  {
    hide FoldRows, Slice, LogOk, GrewSince, Horizon, Closed, DailyOf, AgreeBelow;
    ClosedPartSettled(s.rolled, s.log, s.templates, s.clock, s.rolledAt);
    AgreeBelowHere(s.rolled, s.log, b, Hourly, Closed(s.rolledAt));
    RecomputeLocal(s.rolled, s.log, b, Hourly, FoldRows);
    RecomputeKeys(s.log, b, Hourly, FoldRows);
    if b in s.hourly {
      RecomputeValue(s.log, Hourly, b, FoldRows);
    }
  }

  lemma AgreeBelowHere(m: Table, m': Table, b: Key, g: Grain, f: int)
    requires AgreeBelow(m, m', f) && b.ts + Width(g) <= f
    ensures AgreeOn(m, m', b.tpl, b.ts, b.ts + Width(g))
  {
    forall ts | b.ts <= ts < b.ts + Width(g)
      ensures At(m, Key(b.tpl, ts)) == At(m', Key(b.tpl, ts))
    {
      assert Key(b.tpl, ts).ts < f;
    }
  }

  /** The same two folds deep, for a retained day before the last rollup's hour. */
  lemma ClosedDayIsExact(s: Store, b: Key)
    requires s.Valid() && OnGrid(b.ts, Daily)
    requires Horizon(s.rolledAt, DAILY_RETENTION) <= b.ts && b.ts + DAY <= Closed(s.rolledAt)
    ensures b in s.daily <==> Occupied(s.log, b, Daily)
    ensures b in s.daily ==> s.daily[b] == FoldRows(Slice(HourlyOf(s.log), b.tpl, b.ts, b.ts + DAY))
  {
    hide FoldRows, Slice, LogOk, GrewSince, Horizon, Closed, DailyOf, Floor;
    DaySettled(s.rolled, s.log, s.templates, s.clock, s.rolledAt, b);
  }

  lemma DaySettled(rolled: Table, log: Table, templates: set<int>, clock: int, rolledAt: Option<int>, b: Key)
    requires LogOk(log, templates, clock) && GrewSince(rolled, log, rolledAt)
    requires OnGrid(b.ts, Daily) && b.ts + DAY <= Closed(rolledAt)
    ensures b in DailyOf(rolled) <==> Occupied(log, b, Daily)
    ensures b in DailyOf(rolled) ==> DailyOf(rolled)[b] == FoldRows(Slice(HourlyOf(log), b.tpl, b.ts, b.ts + DAY))
  {
    hide FoldRows, Slice, LogOk, GrewSince, Closed, AgreeBelow, Recompute, Occupied;
    ClosedPartSettled(rolled, log, templates, clock, rolledAt);
    RecomputeAgreeBelow(rolled, log, Hourly, Closed(rolledAt), FoldRows);
    AgreeBelowHere(HourlyOf(rolled), HourlyOf(log), b, Daily, Closed(rolledAt));
    RecomputeLocal(HourlyOf(rolled), HourlyOf(log), b, Daily, FoldRows);
    RecomputeKeys(HourlyOf(log), b, Daily, FoldRows);
    OccupiedThroughHours(log, b);
    if b in DailyOf(rolled) {
      RecomputeValue(HourlyOf(log), Daily, b, FoldRows);
    }
  }

  /** A day has an hourly row exactly when it has a point. */
  lemma OccupiedThroughHours(log: Table, b: Key)
    requires OnGrid(b.ts, Daily)
    ensures Occupied(HourlyOf(log), b, Daily) <==> Occupied(log, b, Daily)
  {
    hide FoldRows, Slice, Recompute;
    if Occupied(HourlyOf(log), b, Daily) {
      var h :| b.ts <= h < b.ts + DAY && Key(b.tpl, h) in HourlyOf(log);
      RecomputeKeys(log, Key(b.tpl, h), Hourly, FoldRows);
      var ts :| h <= ts < h + HOUR && Key(b.tpl, ts) in log;
      HourInsideDay(b.ts, h);
      assert b.ts <= ts < b.ts + DAY;
    }
    if Occupied(log, b, Daily) {
      var ts :| b.ts <= ts < b.ts + DAY && Key(b.tpl, ts) in log;
      var h := Floor(ts, Hourly);
      FloorBounds(ts, Hourly);
      FloorMonotone(b.ts, ts, Hourly);
      DayOnHourGrid(b.ts);
      RecomputeKeys(log, Key(b.tpl, h), Hourly, FoldRows);
      assert h <= ts < h + HOUR;
      assert b.ts <= h < b.ts + DAY && Key(b.tpl, h) in HourlyOf(log);
    }
  }

  lemma DayOnHourGrid(d: int)
    requires OnGrid(d, Daily)
    ensures OnGrid(d, Hourly)
  {
    assert d == d / DAY * 24 * HOUR;
  }

  lemma HourInsideDay(d: int, h: int)
    requires OnGrid(d, Daily) && OnGrid(h, Hourly) && d <= h < d + DAY
    ensures h + HOUR <= d + DAY
  {
    DayOnHourGrid(d);
    assert OnGrid(d + DAY, Daily) by {
      assert (d + DAY) / DAY == d / DAY + 1;
    }
    DayOnHourGrid(d + DAY);
    GridApart(h, d + DAY, Hourly);
  }

  /** Conservation through both folds: a closed day's row counts every capture of
      that day once, and carries their true minimum. */
  lemma ClosedDayConserves(s: Store, b: Key)
    requires s.Valid() && OnGrid(b.ts, Daily) && b in s.daily
    requires b.ts + DAY <= Closed(s.rolledAt)
    ensures s.daily[b].samples == |Stamps(s.log, b.tpl, b.ts, b.ts + DAY)|
    ensures IsLeastIn(s.daily[b].point.minPrice, s.log, b.tpl, b.ts, b.ts + DAY)
  {
    hide FoldRows, Slice, GrewSince, Closed, AgreeBelow, Recompute, Floor, Samples, LeastPrice;
    ClosedDayIsExact(s, b);
    DayTotals(s.log, b);
    SamplesCountRows(s.log, b.tpl, b.ts, b.ts + DAY);
    SliceLeast(s.log, b.tpl, b.ts, b.ts + DAY);
  }

  lemma DayTotals(log: Table, b: Key)
    requires OnGrid(b.ts, Daily)
    ensures var row := FoldRows(Slice(HourlyOf(log), b.tpl, b.ts, b.ts + DAY));
            var points := Slice(log, b.tpl, b.ts, b.ts + DAY);
            row.samples == Samples(points) && row.point.minPrice == LeastPrice(points)
  {
    hide Slice, Recompute;
    DayOnHourGrid(b.ts);
    assert OnGrid(b.ts + DAY, Hourly) by {
      assert (b.ts + DAY) / HOUR == b.ts / HOUR + 24;
    }
    FoldRowsKeepsTotals();
    RecomputeConserves(log, Hourly, b.tpl, b.ts, b.ts + DAY, FoldRows);
    FoldRowsTotals(Slice(HourlyOf(log), b.tpl, b.ts, b.ts + DAY));
  }

  /** The throttle, seen through both tiers: no hour ever shows more than 6
      captures and no day more than 144. */
  lemma ThrottleBoundsSamples(s: Store, b: Key)
    requires s.Valid()
    ensures b in s.hourly ==> 1 <= s.hourly[b].samples <= 6
    ensures b in s.daily ==> 1 <= s.daily[b].samples <= 144
  {
    hide FoldRows, Slice, Samples, Recompute, Horizon;
    RolledIsPart(s.rolled, s.log, s.templates, s.clock, s.rolledAt);
    if b in s.hourly {
      HourBound(s.rolled, b);
    }
    if b in s.daily {
      DayBound(s.rolled, b);
    }
  }

  lemma RolledIsPart(rolled: Table, log: Table, templates: set<int>, clock: int, rolledAt: Option<int>)
    requires LogOk(log, templates, clock) && GrewSince(rolled, log, rolledAt)
    ensures Spaced(rolled) && AllRaw(rolled)
  {
  }

  lemma HourBound(m: Table, b: Key)
    requires Spaced(m) && AllRaw(m) && b in HourlyOf(m)
    ensures 1 <= HourlyOf(m)[b].samples <= 6
  {
    hide Slice, FoldRows, Samples, Spaced, AllRaw;
    RecomputeKeys(m, b, Hourly, FoldRows);
    RecomputeValue(m, Hourly, b, FoldRows);
    FoldRowsTotals(Slice(m, b.tpl, b.ts, b.ts + HOUR));
    SpacedBound(m, b.tpl, b.ts, b.ts + HOUR);
    SomeSample(m, b, Hourly);
  }

  lemma DayBound(m: Table, b: Key)
    requires Spaced(m) && AllRaw(m) && b in DailyOf(m)
    ensures 1 <= DailyOf(m)[b].samples <= 144
  {
    hide Slice, FoldRows, Samples, Spaced, AllRaw;
    RecomputeKeys(HourlyOf(m), b, Daily, FoldRows);
    RecomputeValue(HourlyOf(m), Daily, b, FoldRows);
    OccupiedThroughHours(m, b);
    DayTotals(m, b);
    SpacedBound(m, b.tpl, b.ts, b.ts + DAY);
    SomeSample(m, b, Daily);
  }

  lemma SomeSample(m: Table, b: Key, g: Grain)
    requires AllRaw(m) && Occupied(m, b, g)
    ensures Samples(Slice(m, b.tpl, b.ts, b.ts + Width(g))) >= 1
  {
    var ts :| b.ts <= ts < b.ts + Width(g) && Key(b.tpl, ts) in m;
    hide Slice, Samples;
    SamplesCountRows(m, b.tpl, b.ts, b.ts + Width(g));
    assert Key(b.tpl, ts).ts in Stamps(m, b.tpl, b.ts, b.ts + Width(g));
  }
}
