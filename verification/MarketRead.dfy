/** The read side of the price history: one series stitched from three tiers. */
module MarketRead {
  import opened Wrappers
  import opened Downsample
  import opened PriceLog
  import opened MarketHistory
  import opened MarketSeries

  /** A returned point and the stretch of time it stands for, which its tier fixes:
      a day, an hour, or the second of the capture. */
  datatype SeriesPoint = SeriesPoint(ts: int, span: int, point: Point)

  datatype Series = Series(points: seq<SeriesPoint>, low7d: Option<int>, calibrating: bool)

  /** A missing or zero window means the default one. */
  function WindowStart(now: int, days: Option<int>): int {
    now - (if days.None? || days.value == 0 then DEFAULT_DAYS else days.value) * DAY
  }

  /** Daily serves up to here, hourly from here: the first midnight past the hourly
      horizon. */
  function Handover(now: int): int {
    Floor(now - HOURLY_RETENTION, Daily) + DAY
  }

  /** Hourly serves up to here, raw from here. */
  function RawCut(now: int): int {
    Floor(now - RAW_RETENTION, Hourly)
  }

  function Later(a: int, b: int): int {
    if a >= b then a else b
  }

  ghost predicate InTier(p: SeriesPoint, m: Table, tpl: int, lo: int, hi: Option<int>, span: int) {
    && p.span == span
    && Key(tpl, p.ts) in m
    && p.point == m[Key(tpl, p.ts)].point
    && lo <= p.ts
    && (hi.Some? ==> p.ts < hi.value)
  }

  ghost predicate Served(s: Store, tpl: int, detail: bool, days: Option<int>, now: int, p: SeriesPoint)
    reads s
  {
    var since := WindowStart(now, days);
    || InTier(p, s.daily, tpl, since, Some(Handover(now)), DAY)
    || InTier(p, s.hourly, tpl, Later(since, Handover(now)), Some(if detail then RawCut(now) else now + HOUR), HOUR)
    || (detail && InTier(p, s.raw, tpl, Later(since, RawCut(now)), None, 1))
  }

  /** Oldest first, and no instant is covered by two points. */
  ghost predicate Apart(points: seq<SeriesPoint>) {
    forall i, j :: 0 <= i < j < |points| ==> points[i].ts + points[i].span <= points[j].ts
  }

  ghost predicate Covers(p: SeriesPoint, ts: int) {
    p.ts <= ts < p.ts + p.span
  }

  // ------------------------------------------------------------------ reading

  method Earliest(keys: set<Key>) returns (k: Key)
    requires keys != {}
    ensures k in keys && forall j :: j in keys ==> k.ts <= j.ts
  {
    k :| k in keys;
    var todo := keys - {k};
    while todo != {}
      invariant k in keys && todo <= keys
      invariant forall j :: j in keys && j !in todo ==> k.ts <= j.ts
    {
      var j :| j in todo;
      if j.ts < k.ts { k := j; }
      todo := todo - {j};
    }
  }

  /** One tier's rows for a template in a range, ordered by timestamp. */
  method Select(m: Table, tpl: int, lo: int, hi: Option<int>, span: int) returns (rows: seq<SeriesPoint>)
    ensures forall p :: p in rows <==> InTier(p, m, tpl, lo, hi, span)
    ensures Ascending(rows)
  {
    rows := [];
    var wanted := set k | k in m && k.tpl == tpl && lo <= k.ts && (hi.Some? ==> k.ts < hi.value);
    var todo := wanted;
    while todo != {}
      invariant todo <= wanted
      invariant forall p :: p in rows <==> InTier(p, m, tpl, lo, hi, span) && Key(tpl, p.ts) !in todo
      invariant forall i, j :: 0 <= i < j < |rows| ==> rows[i].ts < rows[j].ts
      invariant forall p, k :: p in rows && k in todo ==> p.ts < k.ts
    {
      var k := Earliest(todo);
      var p := SeriesPoint(k.ts, span, m[k].point);
      assert k == Key(tpl, k.ts);
      rows := rows + [p];
      todo := todo - {k};
    }
  }

  ghost predicate IsLeastFrom(v: Option<int>, m: Table, tpl: int, from: int) {
    && (v.Some? ==> exists ts :: from <= ts && Key(tpl, ts) in m && m[Key(tpl, ts)].point.minPrice == v)
    && (forall ts :: from <= ts && Key(tpl, ts) in m ==> AtMost(v, m[Key(tpl, ts)].point.minPrice))
  }

  /** SELECT MIN(min_price): nulls are ignored. */
  method MinPrice(m: Table, tpl: int, from: int) returns (v: Option<int>)
    ensures IsLeastFrom(v, m, tpl, from)
  {
    v := None;
    var wanted := set k | k in m && k.tpl == tpl && from <= k.ts;
    var todo := wanted;
    while todo != {}
      invariant todo <= wanted
      invariant v.Some? ==> exists ts :: from <= ts && Key(tpl, ts) in m && m[Key(tpl, ts)].point.minPrice == v
      invariant forall k :: k in wanted && k !in todo ==> AtMost(v, m[k].point.minPrice)
    {
      var k :| k in todo;
      v := LesserOf(v, m[k].point.minPrice);
      assert k == Key(tpl, k.ts);
      todo := todo - {k};
    }
  }

  lemma ApartConcat(a: seq<SeriesPoint>, b: seq<SeriesPoint>, cut: int)
    requires Apart(a) && Apart(b)
    requires forall p :: p in a ==> p.ts + p.span <= cut
    requires forall p :: p in b ==> cut <= p.ts
    ensures Apart(a + b)
  {
  }

  /** Increasing starts on a grid of the tier's own width do not overlap. */
  lemma GridRowsApart(rows: seq<SeriesPoint>, g: Grain)
    requires Ascending(rows)
    requires forall p :: p in rows ==> p.span == Width(g) && OnGrid(p.ts, g)
    ensures Apart(rows)
  {
    forall i, j | 0 <= i < j < |rows|
      ensures rows[i].ts + rows[i].span <= rows[j].ts
    {
      GridApart(rows[i].ts, rows[j].ts, g);
    }
  }

  lemma GridRowsEndBefore(rows: seq<SeriesPoint>, g: Grain, cut: int)
    requires forall p :: p in rows ==> p.span == Width(g) && OnGrid(p.ts, g) && p.ts < cut
    requires OnGrid(cut, g)
    ensures forall p :: p in rows ==> p.ts + p.span <= cut
  {
    forall p | p in rows ensures p.ts + p.span <= cut {
      GridApart(p.ts, cut, g);
    }
  }

  ghost predicate Ascending(rows: seq<SeriesPoint>) {
    forall i, j :: 0 <= i < j < |rows| ==> rows[i].ts < rows[j].ts
  }

  lemma StitchApart(s: Store, tpl: int, since: int, detail: bool, now: int,
                    daily: seq<SeriesPoint>, hourly: seq<SeriesPoint>, raw: seq<SeriesPoint>)
    requires s.Valid() && Ascending(daily) && Ascending(hourly) && Ascending(raw)
    requires forall p :: p in daily ==> InTier(p, s.daily, tpl, since, Some(Handover(now)), DAY)
    requires forall p :: p in hourly ==> InTier(p, s.hourly, tpl, Later(since, Handover(now)),
                                                Some(if detail then RawCut(now) else now + HOUR), HOUR)
    requires forall p :: p in raw ==> InTier(p, s.raw, tpl, Later(since, RawCut(now)), None, 1)
    requires detail || raw == []
    ensures Apart(daily + hourly + raw)
  {
    hide Handover, RawCut, OnGrid, Floor, Store.TiersOk, Store.Valid, Apart, Ascending;
    OnGrids(s);
    BoundsInOrder(now);
    GridParts(daily, hourly, Handover(now));
    if detail {
      GridRowsEndBefore(hourly, Hourly, RawCut(now));
      SecondsApart(raw);
      assert forall p :: p in daily + hourly ==> p in daily || p in hourly;
      ApartConcat(daily + hourly, raw, RawCut(now));
    } else {
      assert daily + hourly + raw == daily + hourly;
    }
  }

  lemma GridParts(daily: seq<SeriesPoint>, hourly: seq<SeriesPoint>, cut: int)
    requires Ascending(daily) && Ascending(hourly) && OnGrid(cut, Daily)
    requires forall p :: p in daily ==> p.span == DAY && OnGrid(p.ts, Daily) && p.ts < cut
    requires forall p :: p in hourly ==> p.span == HOUR && OnGrid(p.ts, Hourly) && cut <= p.ts
    ensures Apart(daily + hourly)
    ensures forall p :: p in daily ==> p.ts + p.span <= cut
  {
    hide OnGrid, Apart, Ascending;
    GridRowsApart(daily, Daily);
    GridRowsApart(hourly, Hourly);
    GridRowsEndBefore(daily, Daily, cut);
    ApartConcat(daily, hourly, cut);
  }

  lemma SecondsApart(raw: seq<SeriesPoint>)
    requires Ascending(raw) && forall p :: p in raw ==> p.span == 1
    ensures Apart(raw)
  {
  }

  // ------------------------------------------------------- the series in numbers

  /** Where the first day that is shown hour by hour begins, and the first hour that is
      shown capture by capture. */
  function FirstHourlyDay(now: int): int {
    ((now - 60 * 86400) / 86400 + 1) * 86400
  }

  function FirstRawHour(now: int): int {
    (now - 48 * 3600) / 3600 * 3600
  }

  /** The start of the bucket in which a moment is shown. */
  function ShownFrom(now: int, ts: int, detail: bool): int {
    if ts < FirstHourlyDay(now) then ts / 86400 * 86400
    else if !detail || ts < FirstRawHour(now) then ts / 3600 * 3600
    else ts
  }

  /** A window of 21 days unless the caller names another number. */
  function From(now: int, days: Option<int>): int {
    if days.Some? && days.value != 0 then now - days.value * 86400 else now - 21 * 86400
  }

  lemma Numbers(now: int, days: Option<int>)
    ensures WindowStart(now, days) == From(now, days)
    ensures Handover(now) == FirstHourlyDay(now) && RawCut(now) == FirstRawHour(now)
  {
  }

  ghost predicate Shown(points: seq<SeriesPoint>, ts: int) {
    exists p :: p in points && p.ts <= ts < p.ts + p.span
  }

  /** A capture is shown exactly when the bucket it is shown in begins inside the
      window, and it is not one that raw has dropped and hourly does not yet show. */
  lemma DetailedShows(s: Store, tpl: int, days: Option<int>, now: int, points: seq<SeriesPoint>, ts: int)
    requires s.Valid() && s.clock <= now && s.rolledAt.Some? && now - 48 * 3600 <= s.rolledAt.value
    requires now - 365 * 86400 <= From(now, days) && Key(tpl, ts) in s.log
    requires forall p :: p in points <==> Served(s, tpl, true, days, now, p)
    ensures Shown(points, ts) <==>
              From(now, days) <= ShownFrom(now, ts, true)
              && !(FirstRawHour(now) <= ts < s.rolledAt.value - 48 * 3600)
  {
    Numbers(now, days);
    BoundsInOrder(now);
    hide Handover, RawCut, Store.Valid, WindowStart, FirstHourlyDay, FirstRawHour, Served;
    if From(now, days) <= ShownFrom(now, ts, true) {
      ShownIsWhole(now, days, ts);
      EveryCaptureOnce(s, tpl, days, now, ts);
      SameCover(s, tpl, true, days, now, points, ts);
    } else {
      NotShownBefore(s, tpl, true, days, now, points, ts);
    }
  }

  /** In the plain view every capture before the last rollup is shown in the bucket that
      begins inside the window. */
  lemma PlainShows(s: Store, tpl: int, days: Option<int>, now: int, points: seq<SeriesPoint>, ts: int)
    requires s.Valid() && s.clock <= now && s.rolledAt.Some? && ts < s.rolledAt.value
    requires now - 365 * 86400 <= From(now, days) && Key(tpl, ts) in s.log
    requires forall p :: p in points <==> Served(s, tpl, false, days, now, p)
    ensures Shown(points, ts) <==> From(now, days) <= ShownFrom(now, ts, false)
  {
    Numbers(now, days);
    BoundsInOrder(now);
    hide Handover, RawCut, Store.Valid, WindowStart, FirstHourlyDay, FirstRawHour, Served, RolledIn;
    if From(now, days) <= ShownFrom(now, ts, false) {
      ShownIsWholePlain(now, days, ts);
      PlainCoversRolled(s, tpl, days, now, ts);
      SameCover(s, tpl, false, days, now, points, ts);
    } else {
      NotShownBefore(s, tpl, false, days, now, points, ts);
    }
  }

  lemma SameCover(s: Store, tpl: int, detail: bool, days: Option<int>, now: int, points: seq<SeriesPoint>, ts: int)
    requires forall p :: p in points <==> Served(s, tpl, detail, days, now, p)
    ensures Shown(points, ts) <==> exists p :: Served(s, tpl, detail, days, now, p) && Covers(p, ts)
  {
    hide Served;
    if Shown(points, ts) {
      var p :| p in points && p.ts <= ts < p.ts + p.span;
      assert Served(s, tpl, detail, days, now, p) && Covers(p, ts);
    }
    if p :| Served(s, tpl, detail, days, now, p) && Covers(p, ts) {
      assert p in points;
    }
  }

  /** A bucket that begins inside the window lies inside it from its first second. */
  lemma ShownIsWhole(now: int, days: Option<int>, ts: int)
    requires From(now, days) <= ShownFrom(now, ts, true)
    ensures FirstWhole(now, days) <= ts
  {
    Numbers(now, days);
    BoundsInOrder(now);
    var since := WindowStart(now, days);
    FloorBounds(ts, Daily);
    FloorBounds(ts, Hourly);
    hide Handover, RawCut, WindowStart, FirstHourlyDay, FirstRawHour;
    if since < Handover(now) {
      if ts < Handover(now) {
        CeilingLeast(since, Floor(ts, Daily), Daily);
      } else {
        CeilingLeast(since, Handover(now), Daily);
      }
    } else if since < RawCut(now) {
      if ts < RawCut(now) {
        CeilingLeast(since, Floor(ts, Hourly), Hourly);
      } else {
        CeilingLeast(since, RawCut(now), Hourly);
      }
    }
  }

  lemma ShownIsWholePlain(now: int, days: Option<int>, ts: int)
    requires From(now, days) <= ShownFrom(now, ts, false)
    ensures FirstWholePlain(now, days) <= ts
  {
    Numbers(now, days);
    BoundsInOrder(now);
    var since := WindowStart(now, days);
    FloorBounds(ts, Daily);
    FloorBounds(ts, Hourly);
    hide Handover, RawCut, WindowStart, FirstHourlyDay, FirstRawHour;
    if since < Handover(now) {
      CeilingLeast(since, if ts < Handover(now) then Floor(ts, Daily) else Handover(now), Daily);
    } else {
      CeilingLeast(since, Floor(ts, Hourly), Hourly);
    }
  }

  /** The first bucket start at or after a moment. */
  lemma CeilingLeast(from: int, b: int, g: Grain)
    requires OnGrid(b, g) && from <= b
    ensures Ceiling(from, g) <= b
  {
    FloorBounds(from, g);
    if !OnGrid(from, g) {
      GridApart(Floor(from, g), b, g);
    }
  }

  lemma NotShownBefore(s: Store, tpl: int, detail: bool, days: Option<int>, now: int, points: seq<SeriesPoint>, ts: int)
    requires s.Valid() && ShownFrom(now, ts, detail) < From(now, days)
    requires forall p :: p in points <==> Served(s, tpl, detail, days, now, p)
    ensures !Shown(points, ts)
  {
    hide Store.Valid, Served, ShownFrom, From;
    if p :| p in points && p.ts <= ts < p.ts + p.span {
      ShownAtItsBucket(s, tpl, detail, days, now, p, ts);
    }
  }

  /** A point shows a moment from the start of the moment's bucket. */
  lemma ShownAtItsBucket(s: Store, tpl: int, detail: bool, days: Option<int>, now: int, p: SeriesPoint, ts: int)
    requires s.Valid() && Served(s, tpl, detail, days, now, p) && p.ts <= ts < p.ts + p.span
    ensures From(now, days) <= p.ts == ShownFrom(now, ts, detail)
  {
    Numbers(now, days);
    BoundsInOrder(now);
    OnGrids(s);
    hide Handover, RawCut, Store.Valid, WindowStart, FirstHourlyDay, FirstRawHour, OnGrid, From;
    if p.span == DAY {
      GridApart(p.ts, Handover(now), Daily);
      FloorUnique(ts, p.ts, Daily);
    } else if p.span == HOUR {
      FloorUnique(ts, p.ts, Hourly);
      if detail {
        GridApart(p.ts, RawCut(now), Hourly);
      }
    }
  }

  /** The least price of either tier from a moment on. */
  ghost predicate IsLowest(hourly: Table, raw: Table, tpl: int, from: int, v: Option<int>) {
    && (v.Some? ==>
          exists ts :: from <= ts && (Key(tpl, ts) in hourly || Key(tpl, ts) in raw)
                       && (v == PriceAt(hourly, Key(tpl, ts)) || v == PriceAt(raw, Key(tpl, ts))))
    && (forall ts :: from <= ts ==> AtMost(v, PriceAt(hourly, Key(tpl, ts))))
    && (forall ts :: from <= ts ==> AtMost(v, PriceAt(raw, Key(tpl, ts))))
  }

  function PriceAt(m: Table, k: Key): Option<int> {
    if k in m then m[k].point.minPrice else None
  }

  lemma LowInNumbers(hourly: Table, raw: Table, tpl: int, now: int, v: Option<int>)
    requires IsLow7d(hourly, raw, tpl, now, v)
    ensures IsLowest(hourly, raw, tpl, now - 7 * 86400, v)
  {
    var a, b :| IsLeastFrom(a, hourly, tpl, now - SEVEN_DAYS) && IsLeastFrom(b, raw, tpl, now - SEVEN_DAYS)
                && v == LesserOf(a, b);
    if v.Some? && v == a {
      var ts :| now - SEVEN_DAYS <= ts && Key(tpl, ts) in hourly && hourly[Key(tpl, ts)].point.minPrice == a;
      assert v == PriceAt(hourly, Key(tpl, ts));
    } else if v.Some? {
      var ts :| now - SEVEN_DAYS <= ts && Key(tpl, ts) in raw && raw[Key(tpl, ts)].point.minPrice == b;
      assert v == PriceAt(raw, Key(tpl, ts));
    }
    forall ts | now - SEVEN_DAYS <= ts
      ensures AtMost(v, PriceAt(hourly, Key(tpl, ts))) && AtMost(v, PriceAt(raw, Key(tpl, ts)))
    {
      assert Key(tpl, ts) in hourly ==> AtMost(a, hourly[Key(tpl, ts)].point.minPrice);
      assert Key(tpl, ts) in raw ==> AtMost(b, raw[Key(tpl, ts)].point.minPrice);
    }
  }

  /** The price series of one template. */
  method History(s: Store, tpl: Option<int>, detail: bool, days: Option<int>, now: int) returns (r: Series)
    requires s.Valid()
    ensures tpl.None? || tpl.value !in s.templates ==> r == Series([], None, true)
    ensures tpl.Some? && tpl.value in s.templates ==>
              && Apart(r.points)
              && (forall p :: p in r.points <==> Served(s, tpl.value, detail, days, now, p))
              && (r.calibrating <==> r.points == [])
              && IsLow7d(s.hourly, s.raw, tpl.value, now, r.low7d)
    ensures days.None? || days.value == 0 ==> forall p :: p in r.points ==> now - 21 * 86400 <= p.ts
    ensures days.Some? && days.value != 0 ==> forall p :: p in r.points ==> now - days.value * 86400 <= p.ts
    ensures tpl.Some? && tpl.value in s.templates && detail && s.clock <= now && s.rolledAt.Some?
            && now - 48 * 3600 <= s.rolledAt.value && now - 365 * 86400 <= From(now, days) ==>
              forall ts :: Key(tpl.value, ts) in s.log ==>
                (Shown(r.points, ts) <==>
                   From(now, days) <= ShownFrom(now, ts, true)
                   && !(FirstRawHour(now) <= ts < s.rolledAt.value - 48 * 3600))
    ensures tpl.Some? && tpl.value in s.templates && !detail && s.clock <= now && s.rolledAt.Some?
            && now - 365 * 86400 <= From(now, days) ==>
              forall ts :: Key(tpl.value, ts) in s.log && ts < s.rolledAt.value ==>
                (Shown(r.points, ts) <==> From(now, days) <= ShownFrom(now, ts, false))
    ensures tpl.Some? && tpl.value in s.templates ==> IsLowest(s.hourly, s.raw, tpl.value, now - 7 * 86400, r.low7d)
  {
    if tpl.None? || tpl.value !in s.templates {
      return Series([], None, true);
    }
    hide Store.Valid, IsLow7d, IsLowest, Shown, ShownFrom, From, Handover, RawCut, FirstRawHour, Apart;
    var since := WindowStart(now, days);
    var daily := Select(s.daily, tpl.value, since, Some(Handover(now)), DAY);
    var hourly := Select(s.hourly, tpl.value, Later(since, Handover(now)),
                         Some(if detail then RawCut(now) else now + HOUR), HOUR);
    var raw := [];
    if detail {
      raw := Select(s.raw, tpl.value, Later(since, RawCut(now)), None, 1);
    }
    StitchApart(s, tpl.value, since, detail, now, daily, hourly, raw);
    var points := daily + hourly + raw;
    var a := MinPrice(s.hourly, tpl.value, now - SEVEN_DAYS);
    var b := MinPrice(s.raw, tpl.value, now - SEVEN_DAYS);
    r := Series(points, LesserOf(a, b), points == []);
    LowOfBoth(s.hourly, s.raw, tpl.value, now, a, b);
    LowInNumbers(s.hourly, s.raw, tpl.value, now, r.low7d);
    SeriesInNumbers(s, tpl.value, detail, days, now, points);
  }

  lemma LowOfBoth(hourly: Table, raw: Table, tpl: int, now: int, a: Option<int>, b: Option<int>)
    requires IsLeastFrom(a, hourly, tpl, now - SEVEN_DAYS) && IsLeastFrom(b, raw, tpl, now - SEVEN_DAYS)
    ensures IsLow7d(hourly, raw, tpl, now, LesserOf(a, b))
  {
  }

  /** Which captures the points of a series show, and from when. */
  lemma SeriesInNumbers(s: Store, tpl: int, detail: bool, days: Option<int>, now: int, points: seq<SeriesPoint>)
    requires s.Valid() && forall p :: p in points <==> Served(s, tpl, detail, days, now, p)
    ensures forall p :: p in points ==> From(now, days) <= p.ts
    ensures detail && s.clock <= now && s.rolledAt.Some? && now - 48 * 3600 <= s.rolledAt.value
            && now - 365 * 86400 <= From(now, days) ==>
              forall ts :: Key(tpl, ts) in s.log ==>
                (Shown(points, ts) <==>
                   From(now, days) <= ShownFrom(now, ts, true)
                   && !(FirstRawHour(now) <= ts < s.rolledAt.value - 48 * 3600))
    ensures !detail && s.clock <= now && s.rolledAt.Some? && now - 365 * 86400 <= From(now, days) ==>
              forall ts :: Key(tpl, ts) in s.log && ts < s.rolledAt.value ==>
                (Shown(points, ts) <==> From(now, days) <= ShownFrom(now, ts, false))
  {
    PointsInWindow(s, tpl, detail, days, now, points);
    hide Store.Valid, Served, Shown, ShownFrom, From, FirstRawHour;
    if detail && s.clock <= now && s.rolledAt.Some? && now - 48 * 3600 <= s.rolledAt.value
       && now - 365 * 86400 <= From(now, days) {
      forall ts | Key(tpl, ts) in s.log
        ensures Shown(points, ts) <==>
                  From(now, days) <= ShownFrom(now, ts, true)
                  && !(FirstRawHour(now) <= ts < s.rolledAt.value - 48 * 3600)
      {
        DetailedShows(s, tpl, days, now, points, ts);
      }
    }
    if !detail && s.clock <= now && s.rolledAt.Some? && now - 365 * 86400 <= From(now, days) {
      forall ts | Key(tpl, ts) in s.log && ts < s.rolledAt.value
        ensures Shown(points, ts) <==> From(now, days) <= ShownFrom(now, ts, false)
      {
        PlainShows(s, tpl, days, now, points, ts);
      }
    }
  }

  lemma PointsInWindow(s: Store, tpl: int, detail: bool, days: Option<int>, now: int, points: seq<SeriesPoint>)
    requires forall p :: p in points <==> Served(s, tpl, detail, days, now, p)
    ensures forall p :: p in points ==> From(now, days) <= p.ts
  {
    Numbers(now, days);
    hide Handover, RawCut, WindowStart, From;
  }

  ghost predicate IsLow7d(hourly: Table, raw: Table, tpl: int, now: int, v: Option<int>) {
    exists a, b :: IsLeastFrom(a, hourly, tpl, now - SEVEN_DAYS) && IsLeastFrom(b, raw, tpl, now - SEVEN_DAYS)
                   && v == LesserOf(a, b)
  }

  lemma OnGrids(s: Store)
    requires s.Valid()
    ensures forall b :: b in s.hourly ==> OnGrid(b.ts, Hourly)
    ensures forall b :: b in s.daily ==> OnGrid(b.ts, Daily)
  {
    hide Slice, FoldRows, LogOk, GrewSince, Horizon, Recompute, OnGrid;
    forall b | b in s.hourly ensures OnGrid(b.ts, Hourly) {
      RecomputeKeys(s.rolled, b, Hourly, FoldRows);
    }
    forall b | b in s.daily ensures OnGrid(b.ts, Daily) {
      RecomputeKeys(HourlyOf(s.rolled), b, Daily, FoldRows);
    }
  }

  /** The bounds of the three parts never cross, and each is a bucket boundary. */
  lemma BoundsInOrder(now: int)
    ensures OnGrid(Handover(now), Daily) && OnGrid(RawCut(now), Hourly)
    ensures now - HOURLY_RETENTION < Handover(now) <= RawCut(now) <= now - RAW_RETENTION < RawCut(now) + HOUR
  {
    FloorBounds(now - HOURLY_RETENTION, Daily);
    FloorBounds(now - RAW_RETENTION, Hourly);
    assert Handover(now) / DAY == (now - HOURLY_RETENTION) / DAY + 1;
  }

  // ------------------------------------------------- exactly once, and what of

  /** Start of the first bucket that lies wholly inside the window. */
  function FirstWhole(now: int, days: Option<int>): int {
    var since := WindowStart(now, days);
    if since < Handover(now) then Ceiling(since, Daily)
    else if since < RawCut(now) then Ceiling(since, Hourly)
    else since
  }

  function Ceiling(ts: int, g: Grain): int {
    if OnGrid(ts, g) then ts else Floor(ts, g) + Width(g)
  }

  lemma CeilingBelow(from: int, ts: int, g: Grain)
    requires Ceiling(from, g) <= ts
    ensures from <= Floor(ts, g) <= ts < Floor(ts, g) + Width(g)
    ensures OnGrid(Floor(ts, g), g)
  {
    FloorBounds(ts, g);
    FloorBounds(from, g);
    FloorMonotone(Ceiling(from, g), ts, g);
    match g
    case Hourly => assert (Floor(from, g) + HOUR) / HOUR == from / HOUR + 1;
    case Daily => assert (Floor(from, g) + DAY) / DAY == from / DAY + 1;
  }

  /** The strip that no tier serves: past the hourly hand-over, but already pruned
      from raw by the last rollup. */
  ghost predicate InGap(s: Store, now: int, ts: int)
    reads s
  {
    RawCut(now) <= ts < Horizon(s.rolledAt, RAW_RETENTION)
  }

  /** The reader's conditions: time does not run backwards, a rollup ran within the
      raw retention, and the window is within the daily retention. */
  ghost predicate Fresh(s: Store, now: int, days: Option<int>)
    reads s
  {
    && s.Valid() && s.clock <= now
    && s.rolledAt.Some? && now - RAW_RETENTION <= s.rolledAt.value
    && now - DAILY_RETENTION <= WindowStart(now, days)
  }

  lemma GapIsShort(s: Store, now: int, ts: int)
    requires s.Valid() && s.clock <= now && s.rolledAt.Some? && InGap(s, now, ts)
    ensures ts < RawCut(now) + HOUR
  {
    BoundsInOrder(now);
  }

  lemma FreshBounds(s: Store, now: int, days: Option<int>)
    requires Fresh(s, now, days)
    ensures RawCut(now) <= Closed(s.rolledAt)
    ensures Horizon(s.rolledAt, HOURLY_RETENTION) < Handover(now) <= RawCut(now)
    ensures Horizon(s.rolledAt, DAILY_RETENTION) <= WindowStart(now, days)
    ensures Horizon(s.rolledAt, RAW_RETENTION) <= now - RAW_RETENTION
  {
    BoundsInOrder(now);
    FloorMonotone(now - RAW_RETENTION, s.rolledAt.value, Hourly);
  }

  /** Every capture from the first whole bucket of the window on is covered by one
      returned point, except inside the gap, where it is covered by none. (`Apart`
      says it is never covered twice.) */
  lemma EveryCaptureOnce(s: Store, tpl: int, days: Option<int>, now: int, ts: int)
    requires Fresh(s, now, days)
    requires Key(tpl, ts) in s.log && FirstWhole(now, days) <= ts
    ensures (exists p :: Served(s, tpl, true, days, now, p) && Covers(p, ts)) <==> !InGap(s, now, ts)
  {
    FreshBounds(s, now, days);
    BoundsInOrder(now);
    WindowCases(now, days, ts);
    if InGap(s, now, ts) {
      NothingCoversGap(s, tpl, days, now, ts);
    } else if ts < Handover(now) {
      DayCovers(s, tpl, days, now, ts);
    } else if ts < RawCut(now) {
      HourCovers(s, tpl, days, now, ts);
    } else {
      RawCovers(s, tpl, days, now, ts);
    }
  }

  lemma WindowCases(now: int, days: Option<int>, ts: int)
    requires FirstWhole(now, days) <= ts
    ensures WindowStart(now, days) <= ts
    ensures ts < Handover(now) ==> WindowStart(now, days) <= Floor(ts, Daily)
    ensures Handover(now) <= ts < RawCut(now) ==> Later(WindowStart(now, days), Handover(now)) <= Floor(ts, Hourly)
  {
    BoundsInOrder(now);
    var since := WindowStart(now, days);
    if since < Handover(now) {
      CeilingBelow(since, ts, Daily);
    } else if since < RawCut(now) {
      CeilingBelow(since, ts, Hourly);
    }
    if Handover(now) <= ts {
      DayOnHourGrid(Handover(now));
      FloorMonotone(Handover(now), ts, Hourly);
    }
  }

  lemma OccupiedAt(m: Table, tpl: int, ts: int, g: Grain)
    requires Key(tpl, ts) in m
    ensures Occupied(m, Key(tpl, Floor(ts, g)), g)
    ensures OnGrid(Floor(ts, g), g) && Floor(ts, g) <= ts < Floor(ts, g) + Width(g)
  {
    FloorBounds(ts, g);
  }

  lemma DayCovers(s: Store, tpl: int, days: Option<int>, now: int, ts: int)
    requires Fresh(s, now, days) && Key(tpl, ts) in s.log
    requires ts < Handover(now) && WindowStart(now, days) <= Floor(ts, Daily)
    ensures exists p :: Served(s, tpl, true, days, now, p) && Covers(p, ts)
  {
    hide FoldRows, Slice, Horizon, Closed, Floor, OnGrid, Handover, RawCut, Store.Valid, Recompute, Occupied;
    var b := Key(tpl, Floor(ts, Daily));
    OccupiedAt(s.log, tpl, ts, Daily);
    FreshBounds(s, now, days);
    BoundsInOrder(now);
    GridApart(b.ts, Handover(now), Daily);
    ClosedDayIsExact(s, b);
    var p := SeriesPoint(b.ts, DAY, s.daily[b].point);
    assert Served(s, tpl, true, days, now, p) && Covers(p, ts);
  }

  lemma HourCovers(s: Store, tpl: int, days: Option<int>, now: int, ts: int)
    requires Fresh(s, now, days) && Key(tpl, ts) in s.log
    requires ts < RawCut(now) && Later(WindowStart(now, days), Handover(now)) <= Floor(ts, Hourly)
    ensures exists p :: Served(s, tpl, true, days, now, p) && Covers(p, ts)
  {
    hide FoldRows, Slice, Horizon, Closed, Floor, OnGrid, Handover, RawCut, Store.Valid, Recompute, Occupied;
    var b := Key(tpl, Floor(ts, Hourly));
    OccupiedAt(s.log, tpl, ts, Hourly);
    FreshBounds(s, now, days);
    BoundsInOrder(now);
    GridApart(b.ts, RawCut(now), Hourly);
    ClosedHourIsExact(s, b);
    var p := SeriesPoint(b.ts, HOUR, s.hourly[b].point);
    assert Served(s, tpl, true, days, now, p) && Covers(p, ts);
  }

  lemma RawCovers(s: Store, tpl: int, days: Option<int>, now: int, ts: int)
    requires Fresh(s, now, days) && Key(tpl, ts) in s.log
    requires Later(WindowStart(now, days), RawCut(now)) <= ts && !InGap(s, now, ts)
    ensures exists p :: Served(s, tpl, true, days, now, p) && Covers(p, ts)
  {
    hide Recompute, LogOk, GrewSince;
    var p := SeriesPoint(ts, 1, s.raw[Key(tpl, ts)].point);
    assert Served(s, tpl, true, days, now, p) && Covers(p, ts);
  }

  lemma NothingCoversGap(s: Store, tpl: int, days: Option<int>, now: int, ts: int)
    requires Fresh(s, now, days) && InGap(s, now, ts)
    ensures !exists p :: Served(s, tpl, true, days, now, p) && Covers(p, ts)
  {
    OnGrids(s);
    BoundsInOrder(now);
    assert Key(tpl, ts) !in s.raw;
    hide Recompute, LogOk, GrewSince, Handover, RawCut, Store.Valid, OnGrid;
    forall p | Served(s, tpl, true, days, now, p) && Covers(p, ts)
      ensures false
    {
      if p.span == DAY {
        GridApart(p.ts, Handover(now), Daily);
      } else if p.span == HOUR {
        GridApart(p.ts, RawCut(now), Hourly);
      }
    }
  }

  /** What a returned point says: the fold of every capture in the stretch it
      stands for, whichever tier it came from. */
  lemma ServedIsExact(s: Store, tpl: int, days: Option<int>, now: int, p: SeriesPoint)
    requires Fresh(s, now, days) && Served(s, tpl, true, days, now, p)
    ensures IsLeastIn(p.point.minPrice, s.log, tpl, p.ts, p.ts + p.span)
    ensures p.span == HOUR ==> p.point == FoldRows(Slice(s.log, tpl, p.ts, p.ts + HOUR)).point
    ensures p.span == DAY ==> p.point == FoldRows(Slice(HourlyOf(s.log), tpl, p.ts, p.ts + DAY)).point
    ensures p.span == 1 ==> Key(tpl, p.ts) in s.log && p.point == s.log[Key(tpl, p.ts)].point
  {
    if p.span == HOUR {
      ServedHour(s, tpl, days, now, p);
    } else if p.span == DAY {
      ServedDay(s, tpl, days, now, p);
    } else {
      hide Recompute, LogOk, GrewSince, Slice, FoldRows;
      assert p.span == 1 && Key(tpl, p.ts) in s.raw;
    }
  }

  lemma ServedHour(s: Store, tpl: int, days: Option<int>, now: int, p: SeriesPoint)
    requires Fresh(s, now, days) && Served(s, tpl, true, days, now, p) && p.span == HOUR
    ensures p.point == FoldRows(Slice(s.log, tpl, p.ts, p.ts + HOUR)).point
    ensures IsLeastIn(p.point.minPrice, s.log, tpl, p.ts, p.ts + HOUR)
  {
    hide FoldRows, Slice, Horizon, Closed, Floor, OnGrid, Handover, RawCut, Store.Valid, Recompute, Occupied, IsLeastIn;
    OnGrids(s);
    FreshBounds(s, now, days);
    BoundsInOrder(now);
    GridApart(p.ts, RawCut(now), Hourly);
    ClosedHourIsExact(s, Key(tpl, p.ts));
    FoldRowsTotals(Slice(s.log, tpl, p.ts, p.ts + HOUR));
    SliceLeast(s.log, tpl, p.ts, p.ts + HOUR);
  }

  lemma ServedDay(s: Store, tpl: int, days: Option<int>, now: int, p: SeriesPoint)
    requires Fresh(s, now, days) && Served(s, tpl, true, days, now, p) && p.span == DAY
    ensures p.point == FoldRows(Slice(HourlyOf(s.log), tpl, p.ts, p.ts + DAY)).point
    ensures IsLeastIn(p.point.minPrice, s.log, tpl, p.ts, p.ts + DAY)
  {
    hide FoldRows, Slice, Horizon, Closed, Floor, OnGrid, Handover, RawCut, Store.Valid, Recompute, Occupied, IsLeastIn;
    OnGrids(s);
    FreshBounds(s, now, days);
    BoundsInOrder(now);
    GridApart(p.ts, Handover(now), Daily);
    ClosedDayIsExact(s, Key(tpl, p.ts));
    ClosedDayConserves(s, Key(tpl, p.ts));
  }

  // ------------------------------------------------------------ the plain view

  /** Start of the first bucket that lies wholly inside the window, where raw is not
      shown. */
  function FirstWholePlain(now: int, days: Option<int>): int {
    var since := WindowStart(now, days);
    if since < Handover(now) then Ceiling(since, Daily) else Ceiling(since, Hourly)
  }

  /** The row of the plain view that a moment falls in. */
  function PlainGrain(now: int, ts: int): Grain {
    if ts < Handover(now) then Daily else Hourly
  }

  /** The day or hour has been rolled up with something in it. */
  ghost predicate RolledIn(s: Store, tpl: int, now: int, ts: int)
    reads s
  {
    Occupied(s.rolled, Key(tpl, Floor(ts, PlainGrain(now, ts))), PlainGrain(now, ts))
  }

  ghost predicate PlainReader(s: Store, now: int, days: Option<int>)
    reads s
  {
    s.Valid() && s.clock <= now && now - DAILY_RETENTION <= WindowStart(now, days)
  }

  /** Without raw, a capture is covered by one returned point exactly when its day or
      hour has been rolled up with something in it; every capture before the last
      rollup is. (`Apart` says it is never covered twice.) */
  lemma PlainCoversRolled(s: Store, tpl: int, days: Option<int>, now: int, ts: int)
    requires PlainReader(s, now, days) && Key(tpl, ts) in s.log && FirstWholePlain(now, days) <= ts
    ensures (exists p :: Served(s, tpl, false, days, now, p) && Covers(p, ts)) <==> RolledIn(s, tpl, now, ts)
    ensures s.rolledAt.Some? && ts < s.rolledAt.value ==> RolledIn(s, tpl, now, ts)
  {
    hide RolledIn, PlainReader, Served, Covers;
    PlainCases(now, days, ts);
    if RolledIn(s, tpl, now, ts) {
      RolledIsCovered(s, tpl, days, now, ts);
    }
    forall p | Served(s, tpl, false, days, now, p) && Covers(p, ts) ensures RolledIn(s, tpl, now, ts) {
      CoveredIsRolled(s, tpl, days, now, ts, p);
    }
    EarlierIsRolled(s, tpl, days, now, ts);
  }

  lemma PlainCases(now: int, days: Option<int>, ts: int)
    requires FirstWholePlain(now, days) <= ts
    ensures WindowStart(now, days) <= ts
    ensures ts < Handover(now) ==> WindowStart(now, days) <= Floor(ts, Daily)
    ensures Handover(now) <= ts ==> Later(WindowStart(now, days), Handover(now)) <= Floor(ts, Hourly)
  {
    BoundsInOrder(now);
    var since := WindowStart(now, days);
    if since < Handover(now) {
      CeilingBelow(since, ts, Daily);
    } else {
      CeilingBelow(since, ts, Hourly);
    }
    if Handover(now) <= ts {
      DayOnHourGrid(Handover(now));
      FloorMonotone(Handover(now), ts, Hourly);
    }
  }

  lemma EarlierIsRolled(s: Store, tpl: int, days: Option<int>, now: int, ts: int)
    requires PlainReader(s, now, days) && Key(tpl, ts) in s.log
    ensures s.rolledAt.Some? && ts < s.rolledAt.value ==> RolledIn(s, tpl, now, ts)
  {
    hide Recompute, LogOk, Handover;
    if s.rolledAt.Some? && ts < s.rolledAt.value {
      assert Key(tpl, ts) in s.rolled;
      OccupiedAt(s.rolled, tpl, ts, PlainGrain(now, ts));
    }
  }

  lemma RolledIsCovered(s: Store, tpl: int, days: Option<int>, now: int, ts: int)
    requires PlainReader(s, now, days) && RolledIn(s, tpl, now, ts) && Key(tpl, ts) in s.log
    requires ts < Handover(now) ==> WindowStart(now, days) <= Floor(ts, Daily)
    requires Handover(now) <= ts ==> Later(WindowStart(now, days), Handover(now)) <= Floor(ts, Hourly)
    ensures exists p :: Served(s, tpl, false, days, now, p) && Covers(p, ts)
  {
    hide FoldRows, Slice, Floor, OnGrid, Handover, RawCut, Recompute, Occupied, LogOk, GrewSince, Served, Covers,
         PlainReader;
    ReaderFacts(s, tpl, days, now, ts);
    if ts < Handover(now) {
      RolledDayIsCovered(s, tpl, days, now, ts);
    } else {
      RolledHourIsCovered(s, tpl, days, now, ts);
    }
  }

  lemma RolledDayIsCovered(s: Store, tpl: int, days: Option<int>, now: int, ts: int)
    requires PlainReader(s, now, days) && Occupied(s.rolled, Key(tpl, Floor(ts, Daily)), Daily)
    requires ts < Handover(now) && WindowStart(now, days) <= Floor(ts, Daily) && s.rolledAt.Some?
    ensures exists p :: Served(s, tpl, false, days, now, p) && Covers(p, ts)
  {
    FloorBounds(ts, Daily);
    hide FoldRows, Slice, Floor, OnGrid, Handover, Recompute, Occupied, LogOk, GrewSince;
    var b := Key(tpl, Floor(ts, Daily));
    OccupiedThroughHours(s.rolled, b);
    RecomputeKeys(HourlyOf(s.rolled), b, Daily, FoldRows);
    var p := SeriesPoint(b.ts, DAY, s.daily[b].point);
    assert Served(s, tpl, false, days, now, p) && Covers(p, ts);
  }

  lemma RolledHourIsCovered(s: Store, tpl: int, days: Option<int>, now: int, ts: int)
    requires PlainReader(s, now, days) && Occupied(s.rolled, Key(tpl, Floor(ts, Hourly)), Hourly) && ts <= now
    requires Later(WindowStart(now, days), Handover(now)) <= Floor(ts, Hourly) && s.rolledAt.Some?
    ensures exists p :: Served(s, tpl, false, days, now, p) && Covers(p, ts)
  {
    BoundsInOrder(now);
    FloorBounds(ts, Hourly);
    hide FoldRows, Slice, Floor, OnGrid, Handover, RawCut, Recompute, Occupied, LogOk, GrewSince;
    var b := Key(tpl, Floor(ts, Hourly));
    RecomputeKeys(s.rolled, b, Hourly, FoldRows);
    var p := SeriesPoint(b.ts, HOUR, s.hourly[b].point);
    assert Served(s, tpl, false, days, now, p) && Covers(p, ts);
  }

  lemma ReaderFacts(s: Store, tpl: int, days: Option<int>, now: int, ts: int)
    requires PlainReader(s, now, days) && Key(tpl, ts) in s.log
    ensures ts <= now
    ensures RolledIn(s, tpl, now, ts) ==> s.rolledAt.Some?
  {
    hide Recompute, Handover, Floor;
  }

  lemma CoveredIsRolled(s: Store, tpl: int, days: Option<int>, now: int, ts: int, p: SeriesPoint)
    requires PlainReader(s, now, days) && Served(s, tpl, false, days, now, p) && Covers(p, ts)
    ensures RolledIn(s, tpl, now, ts)
  {
    OnGrids(s);
    BoundsInOrder(now);
    hide FoldRows, Slice, Floor, OnGrid, Handover, RawCut, Recompute, Occupied, LogOk, GrewSince, Horizon;
    if p.span == DAY {
      GridApart(p.ts, Handover(now), Daily);
      FloorUnique(ts, p.ts, Daily);
      OccupiedThroughHours(s.rolled, Key(tpl, p.ts));
      RecomputeKeys(HourlyOf(s.rolled), Key(tpl, p.ts), Daily, FoldRows);
    } else {
      FloorUnique(ts, p.ts, Hourly);
      RecomputeKeys(s.rolled, Key(tpl, p.ts), Hourly, FoldRows);
    }
  }

  /** What a point of the plain view says: the fold of every capture of its stretch that
      had been rolled up, which is every capture of it once the stretch is closed. */
  lemma PlainIsExact(s: Store, tpl: int, days: Option<int>, now: int, p: SeriesPoint)
    requires s.Valid() && Served(s, tpl, false, days, now, p)
    ensures IsLeastIn(p.point.minPrice, s.rolled, tpl, p.ts, p.ts + p.span)
    ensures p.span == HOUR || p.span == DAY
    ensures p.span == HOUR ==> p.point == FoldRows(Slice(s.rolled, tpl, p.ts, p.ts + HOUR)).point
    ensures p.span == DAY ==> p.point == FoldRows(Slice(HourlyOf(s.rolled), tpl, p.ts, p.ts + DAY)).point
    ensures p.ts + p.span <= Closed(s.rolledAt) ==> AgreeOn(s.rolled, s.log, tpl, p.ts, p.ts + p.span)
  {
    hide FoldRows, Slice, Floor, Handover, RawCut, Recompute, LogOk, GrewSince, Horizon, IsLeastIn, AgreeOn, Closed,
         Store.Valid;
    if p.span == DAY {
      PlainDay(s, Key(tpl, p.ts));
    } else {
      PlainHour(s, Key(tpl, p.ts));
    }
  }

  lemma PlainDay(s: Store, b: Key)
    requires s.Valid() && b in s.daily
    ensures s.daily[b] == FoldRows(Slice(HourlyOf(s.rolled), b.tpl, b.ts, b.ts + DAY))
    ensures IsLeastIn(s.daily[b].point.minPrice, s.rolled, b.tpl, b.ts, b.ts + DAY)
    ensures b.ts + DAY <= Closed(s.rolledAt) ==> AgreeOn(s.rolled, s.log, b.tpl, b.ts, b.ts + DAY)
  {
    OnGrids(s);
    ClosedPartSettled(s.rolled, s.log, s.templates, s.clock, s.rolledAt);
    hide FoldRows, Slice, Floor, Recompute, LogOk, GrewSince, Horizon, IsLeastIn, AgreeBelow, AgreeOn, Closed;
    RecomputeValue(HourlyOf(s.rolled), Daily, b, FoldRows);
    DayTotals(s.rolled, b);
    SliceLeast(s.rolled, b.tpl, b.ts, b.ts + DAY);
    if b.ts + DAY <= Closed(s.rolledAt) {
      AgreeBelowHere(s.rolled, s.log, b, Daily, Closed(s.rolledAt));
    }
  }

  lemma PlainHour(s: Store, b: Key)
    requires s.Valid() && b in s.hourly
    ensures s.hourly[b] == FoldRows(Slice(s.rolled, b.tpl, b.ts, b.ts + HOUR))
    ensures IsLeastIn(s.hourly[b].point.minPrice, s.rolled, b.tpl, b.ts, b.ts + HOUR)
    ensures b.ts + HOUR <= Closed(s.rolledAt) ==> AgreeOn(s.rolled, s.log, b.tpl, b.ts, b.ts + HOUR)
  {
    ClosedPartSettled(s.rolled, s.log, s.templates, s.clock, s.rolledAt);
    hide FoldRows, Slice, Floor, Recompute, LogOk, GrewSince, Horizon, IsLeastIn, AgreeBelow, AgreeOn, Closed;
    RecomputeValue(s.rolled, Hourly, b, FoldRows);
    FoldRowsTotals(Slice(s.rolled, b.tpl, b.ts, b.ts + HOUR));
    SliceLeast(s.rolled, b.tpl, b.ts, b.ts + HOUR);
    if b.ts + HOUR <= Closed(s.rolledAt) {
      AgreeBelowHere(s.rolled, s.log, b, Hourly, Closed(s.rolledAt));
    }
  }
}
