/** What the tiers hold, in seconds, hours and days: the captures behind a stored row
    are listed by their stamps, and the row is what their columns come to. */
module MarketPromises {
  import opened Wrappers
  import opened Downsample
  import opened PriceLog
  import opened MarketHistory
  import opened MarketSeries

  /** All stamps of one template in a stretch, each once, oldest first. */
  ghost predicate Lists(stamps: seq<int>, m: Table, tpl: int, lo: int, hi: int) {
    && (forall i, j :: 0 <= i < j < |stamps| ==> stamps[i] < stamps[j])
    && (forall ts :: ts in stamps <==> lo <= ts < hi && Key(tpl, ts) in m)
  }

  ghost predicate AllIn(m: Table, tpl: int, stamps: seq<int>) {
    forall ts :: ts in stamps ==> Key(tpl, ts) in m
  }

  function RowsAt(m: Table, tpl: int, stamps: seq<int>): (rows: seq<Row>)
    requires forall ts :: ts in stamps ==> Key(tpl, ts) in m
    ensures |rows| == |stamps| && forall i :: 0 <= i < |rows| ==> rows[i] == m[Key(tpl, stamps[i])]
  {
    if stamps == [] then []
    else
      assert forall ts :: ts in stamps[..|stamps| - 1] ==> ts in stamps;
      RowsAt(m, tpl, stamps[..|stamps| - 1]) + [m[Key(tpl, stamps[|stamps| - 1])]]
  }

  /** Without its last stamp a list is one of a shorter stretch. */
  lemma ListsBut(stamps: seq<int>, m: Table, tpl: int, lo: int, hi: int)
    requires Lists(stamps, m, tpl, lo, hi) && lo < hi
    ensures Key(tpl, hi - 1) !in m ==> Lists(stamps, m, tpl, lo, hi - 1)
    ensures Key(tpl, hi - 1) in m ==>
              stamps != [] && stamps[|stamps| - 1] == hi - 1 && Lists(stamps[..|stamps| - 1], m, tpl, lo, hi - 1)
  {
    if Key(tpl, hi - 1) in m {
      var i :| 0 <= i < |stamps| && stamps[i] == hi - 1;
      assert stamps[|stamps| - 1] in stamps;
      var fewer := stamps[..|stamps| - 1];
      forall ts ensures ts in fewer <==> lo <= ts < hi - 1 && Key(tpl, ts) in m {
        if ts in stamps && ts != hi - 1 {
          var j :| 0 <= j < |stamps| && stamps[j] == ts;
          assert fewer[j] == ts;
        }
        if ts in fewer {
          var j :| 0 <= j < |fewer| && fewer[j] == ts;
          assert stamps[j] in stamps && stamps[j] < stamps[|stamps| - 1];
        }
      }
    } else {
      forall ts ensures ts in stamps <==> lo <= ts < hi - 1 && Key(tpl, ts) in m {
      }
    }
  }

  lemma NothingListed(stamps: seq<int>, m: Table, tpl: int, lo: int, hi: int)
    requires Lists(stamps, m, tpl, lo, hi) && hi <= lo
    ensures stamps == []
  {
    if stamps != [] {
      var ts := OneOf(stamps);
      assert false;
    }
  }

  lemma OneOf(stamps: seq<int>) returns (ts: int)
    requires stamps != []
    ensures ts in stamps
  {
    ts := stamps[0];
  }

  lemma {:induction false} SliceIsListed(stamps: seq<int>, m: Table, tpl: int, lo: int, hi: int)
    requires Lists(stamps, m, tpl, lo, hi)
    ensures AllIn(m, tpl, stamps) && Slice(m, tpl, lo, hi) == RowsAt(m, tpl, stamps)
    decreases hi - lo
  {
    if hi <= lo {
      NothingListed(stamps, m, tpl, lo, hi);
    } else {
      ListsBut(stamps, m, tpl, lo, hi);
      hide Lists;
      if Key(tpl, hi - 1) in m {
        SliceIsListed(stamps[..|stamps| - 1], m, tpl, lo, hi - 1);
        assert forall ts :: ts in stamps ==> ts in stamps[..|stamps| - 1] || ts == hi - 1;
      } else {
        SliceIsListed(stamps, m, tpl, lo, hi - 1);
      }
    }
  }

  lemma ListedOrNot(stamps: seq<int>, m: Table, b: Key, g: Grain)
    requires Lists(stamps, m, b.tpl, b.ts, b.ts + Width(g))
    ensures Occupied(m, b, g) <==> stamps != []
  {
    if stamps != [] {
      assert stamps[0] in stamps;
    }
  }

  lemma ListedFold(m: Table, tpl: int, stamps: seq<int>)
    requires AllIn(m, tpl, stamps)
    ensures IsFold(FoldRows(RowsAt(m, tpl, stamps)), RowsAt(m, tpl, stamps))
  {
    hide FoldRows, IsFold;
    FoldRowsIsFold(RowsAt(m, tpl, stamps));
  }

  lemma HourListedOrNot(stamps: seq<int>, m: Table, b: Key)
    requires Lists(stamps, m, b.tpl, b.ts, b.ts + 3600)
    ensures Occupied(m, b, Hourly) <==> stamps != []
  {
    hide Occupied, Lists;
    ListedOrNot(stamps, m, b, Hourly);
  }

  lemma DayListedOrNot(stamps: seq<int>, m: Table, b: Key)
    requires Lists(stamps, m, b.tpl, b.ts, b.ts + 86400)
    ensures Occupied(m, b, Daily) <==> stamps != []
  {
    hide Occupied, Lists;
    ListedOrNot(stamps, m, b, Daily);
  }

  /** An hour's row stands for the captures of that hour: it is there exactly when there
      is one, and each of its columns is the statistic of their column. So it is in any
      recompute, and in the store for every hour of the last sixty days that was over
      at the last rollup. */
  lemma HourInFull(s: Store, tpl: int, hour: int, stamps: seq<int>)
    requires s.Valid() && s.rolledAt.Some? && hour % 3600 == 0
    requires s.rolledAt.value - 60 * 86400 <= hour && hour + 3600 <= s.rolledAt.value / 3600 * 3600
    requires Lists(stamps, s.log, tpl, hour, hour + 3600)
    ensures AllIn(s.log, tpl, stamps) && (Key(tpl, hour) in s.hourly <==> stamps != [])
    ensures stamps != [] ==> IsFold(s.hourly[Key(tpl, hour)], RowsAt(s.log, tpl, stamps))
  {
    var b := Key(tpl, hour);
    assert OnGrid(hour, Hourly);
    hide FoldRows, Slice, Lists, IsFold, Store.Valid;
    SliceIsListed(stamps, s.log, tpl, hour, hour + 3600);
    ListedOrNot(stamps, s.log, b, Hourly);
    ClosedHourIsExact(s, b);
    FoldRowsIsFold(RowsAt(s.log, tpl, stamps));
  }

  lemma HourOfLog(log: Table, tpl: int, hour: int, stamps: seq<int>)
    requires hour % 3600 == 0 && Lists(stamps, log, tpl, hour, hour + 3600)
    ensures AllIn(log, tpl, stamps) && (Key(tpl, hour) in HourlyOf(log) <==> stamps != [])
    ensures stamps != [] ==> IsFold(HourlyOf(log)[Key(tpl, hour)], RowsAt(log, tpl, stamps))
  {
    var b := Key(tpl, hour);
    hide *;
    HourRecomputed(log, b);
    SliceIsListed(stamps, log, tpl, hour, hour + 3600);
    HourListedOrNot(stamps, log, b);
    ListedFold(log, tpl, stamps);
  }

  lemma HourRecomputed(log: Table, b: Key)
    requires b.ts % 3600 == 0
    ensures b in HourlyOf(log) <==> Occupied(log, b, Hourly)
    ensures b in HourlyOf(log) ==> HourlyOf(log)[b] == FoldRows(Slice(log, b.tpl, b.ts, b.ts + 3600))
  {
    assert OnGrid(b.ts, Hourly);
    hide FoldRows, Slice, Recompute, Occupied;
    RecomputeKeys(log, b, Hourly, FoldRows);
    if b in HourlyOf(log) {
      RecomputeValue(log, Hourly, b, FoldRows);
    }
  }

  lemma DayBounds(rolledAt: Option<int>, day: int)
    requires rolledAt.Some? && day % 86400 == 0
    requires rolledAt.value - 365 * 86400 <= day && day + 86400 <= rolledAt.value / 3600 * 3600
    ensures OnGrid(day, Daily) && Horizon(rolledAt, DAILY_RETENTION) <= day && day + DAY <= Closed(rolledAt)
  {
  }

  lemma DayRecomputed(s: Store, b: Key)
    requires s.Valid() && s.rolledAt.Some? && b.ts % 86400 == 0
    requires s.rolledAt.value - 365 * 86400 <= b.ts && b.ts + 86400 <= s.rolledAt.value / 3600 * 3600
    ensures b in s.daily <==> Occupied(HourlyOf(s.log), b, Daily)
    ensures b in s.daily ==> s.daily[b] == FoldRows(Slice(HourlyOf(s.log), b.tpl, b.ts, b.ts + 86400))
  {
    DayBounds(s.rolledAt, b.ts);
    hide FoldRows, Slice, Store.Valid, HourlyOf, Recompute, Horizon, Closed, OnGrid, Occupied;
    OccupiedThroughHours(s.log, b);
    ClosedDayIsExact(s, b);
  }

  /** A day's row stands for the hours of that day that had captures: each of its columns
      is the statistic of the hours' column, over the last year. */
  lemma DayInFull(s: Store, tpl: int, day: int, hours: seq<int>)
    requires s.Valid() && s.rolledAt.Some? && day % 86400 == 0
    requires s.rolledAt.value - 365 * 86400 <= day && day + 86400 <= s.rolledAt.value / 3600 * 3600
    requires Lists(hours, HourlyOf(s.log), tpl, day, day + 86400)
    ensures AllIn(HourlyOf(s.log), tpl, hours) && (Key(tpl, day) in s.daily <==> hours != [])
    ensures hours != [] ==> IsFold(s.daily[Key(tpl, day)], RowsAt(HourlyOf(s.log), tpl, hours))
  {
    var b := Key(tpl, day);
    hide *;
    DayRecomputed(s, b);
    SliceIsListed(hours, HourlyOf(s.log), tpl, day, day + 86400);
    DayListedOrNot(hours, HourlyOf(s.log), b);
    ListedFold(HourlyOf(s.log), tpl, hours);
  }

  /** The raw tier is every capture of the 48 hours before the last rollup, and since. */
  lemma RawInFull(s: Store, k: Key)
    requires s.Valid()
    ensures k in s.raw <==> k in s.log && (s.rolledAt.Some? ==> s.rolledAt.value - 48 * 3600 <= k.ts)
    ensures k in s.raw ==> s.raw[k] == s.log[k]
  {
    hide HourlyOf, DailyOf, GrewSince;
    assert k in s.log ==> 0 <= k.ts;
  }
}
