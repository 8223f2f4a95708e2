/** The tiered price history: a throttled stream of points kept at three
    resolutions, rolled up once an hour and pruned per tier. */
module MarketHistory {
  import opened Wrappers
  import opened Downsample
  import opened PriceLog

  const RAW_RETENTION := 48 * HOUR
  const HOURLY_RETENTION := 60 * DAY
  const DAILY_RETENTION := 365 * DAY

  /** One aggregate row of a snapshot; a nameless template has no key. */
  datatype Captured = Captured(tpl: Option<int>, point: Point)

  // ------------------------------------------------- what the tiers hold when

  /** Each tier's horizon is set by the last rollup; nothing is dropped before it. */
  function Horizon(rolledAt: Option<int>, retention: int): int {
    if rolledAt.None? then 0 else rolledAt.value - retention
  }

  ghost function HourlyOf(log: Table): Table {
    Recompute(log, Hourly, FoldRows)
  }

  ghost function DailyOf(log: Table): Table {
    Recompute(HourlyOf(log), Daily, FoldRows)
  }

  /** The log only grew since the last rollup, and only from that moment on. */
  ghost predicate GrewSince(rolled: Table, log: Table, rolledAt: Option<int>) {
    && rolled.Keys <= log.Keys
    && (forall k :: k in rolled ==> rolled[k] == log[k])
    && (rolledAt.None? ==> rolled == map[])
    && (rolledAt.Some? ==> forall k :: k in log && k !in rolled ==> k.ts >= rolledAt.value)
  }

  ghost predicate LogOk(log: Table, templates: set<int>, clock: int) {
    && AllRaw(log)
    && Spaced(log)
    && (forall k :: k in log ==> 0 <= k.ts <= clock && k.tpl in templates)
  }

  /** The rows that a snapshot stores: the first row of every named template that
      has no recent point. */
  ghost predicate IsPayload(p: Table, rows: seq<Captured>, recent: set<int>, stamp: int) {
    && (forall k :: k in p ==>
          k.ts == stamp && k.tpl !in recent && exists i :: IsFirst(rows, i, k.tpl) && p[k] == Row(rows[i].point, 1))
    && (forall i :: 0 <= i < |rows| && rows[i].tpl.Some? && rows[i].tpl.value !in recent ==>
          Key(rows[i].tpl.value, stamp) in p)
  }

  ghost predicate IsFirst(rows: seq<Captured>, i: int, tpl: int) {
    0 <= i < |rows| && rows[i].tpl == Some(tpl) && forall j :: 0 <= j < i ==> rows[j].tpl != Some(tpl)
  }

  // ---------------------------------------------------------------- one pass

  /** The rows of one bucket, order forgotten. */
  ghost function RowsIn(m: Table, b: Key, g: Grain): multiset<Row> {
    multiset(Slice(m, b.tpl, b.ts, b.ts + Width(g)))
  }

  lemma EmptyBucket(m: Table, b: Key, g: Grain)
    requires OnGrid(b.ts, g) && b !in BucketKeys(m, g)
    ensures RowsIn(m, b, g) == multiset{}
  {
    RecomputeKeys(m, b, g, FoldRows);
    SliceNone(m, b.tpl, b.ts, b.ts + Width(g));
  }

  lemma InBucket(k: Key, c: Key, g: Grain)
    requires OnGrid(c.ts, g)
    ensures c == BucketOf(k, g) <==> k.tpl == c.tpl && c.ts <= k.ts < c.ts + Width(g)
  {
    FloorBounds(k.ts, g);
    if c.ts <= k.ts < c.ts + Width(g) {
      FloorUnique(k.ts, c.ts, g);
    }
  }

  /** A row read in lands in its own bucket and in no other. */
  lemma IntoItsBucket(m: Table, k: Key, r: Row, c: Key, g: Grain)
    requires k !in m && OnGrid(c.ts, g)
    ensures RowsIn(m[k := r], c, g) == if c == BucketOf(k, g) then RowsIn(m, c, g) + multiset{r} else RowsIn(m, c, g)
  {
    hide Slice, BucketOf, OnGrid;
    InBucket(k, c, g);
    SliceInsert(m, k, r, c.tpl, c.ts, c.ts + Width(g));
  }

  ghost predicate Aligned(keys: set<Key>, g: Grain)
  {
    forall b :: b in keys ==> OnGrid(b.ts, g)
  }

  ghost predicate Separate(buckets: map<Key, Bucket>) {
    forall b, c :: b in buckets && c in buckets && b != c ==> buckets[b] != buckets[c]
  }

  ghost predicate Filled(buckets: map<Key, Bucket>, done: Table, g: Grain)
    reads buckets.Values
  {
    forall b :: b in buckets ==> buckets[b].Valid() && multiset(buckets[b].rows) == RowsIn(done, b, g)
  }

  /** Finds the bucket for b, opening an empty one if there is none yet. */
  method Open(buckets: map<Key, Bucket>, b: Key, g: Grain, ghost done: Table) returns (after: map<Key, Bucket>)
    requires OnGrid(b.ts, g) && buckets.Keys == BucketKeys(done, g)
    requires Separate(buckets) && Filled(buckets, done, g)
    ensures after.Keys == buckets.Keys + {b}
    ensures Separate(after) && Filled(after, done, g)
    ensures forall c :: c in after ==> after[c] in buckets.Values || fresh(after[c])
  {
    hide BagOf, Slice, Floor, BucketKeys;
    after := buckets;
    if b !in buckets {
      var bucket := new Bucket();
      EmptyBucket(done, b, g);
      after := buckets[b := bucket];
    }
  }

  /** Adds one row to the bucket it belongs to and to no other. */
  method AddRow(buckets: map<Key, Bucket>, k: Key, r: Row, g: Grain, ghost done: Table)
    requires k !in done && BucketOf(k, g) in buckets && Aligned(buckets.Keys, g)
    requires Separate(buckets) && Filled(buckets, done, g)
    modifies buckets.Values
    ensures Filled(buckets, done[k := r], g)
  {
    hide BagOf, Slice, Floor;
    buckets[BucketOf(k, g)].Add(r);
    forall c | c in buckets
      ensures buckets[c].Valid() && multiset(buckets[c].rows) == RowsIn(done[k := r], c, g)
    {
      IntoItsBucket(done, k, r, c, g);
    }
  }

  /** One turn of the accumulation loop. */
  method Absorb(buckets: map<Key, Bucket>, k: Key, r: Row, g: Grain, ghost done: Table)
    returns (after: map<Key, Bucket>)
    requires k !in done && buckets.Keys == BucketKeys(done, g) && Aligned(buckets.Keys, g)
    requires Separate(buckets) && Filled(buckets, done, g)
    modifies buckets.Values
    ensures after.Keys == BucketKeys(done[k := r], g) && Aligned(after.Keys, g)
    ensures Separate(after) && Filled(after, done[k := r], g)
    ensures forall c :: c in after ==> after[c] in buckets.Values || fresh(after[c])
  {
    BucketOnGrid(k, g);
    OneMoreBucket(done, k, r, g);
    hide *;
    after := Open(buckets, BucketOf(k, g), g, done);
    AlignedAdd(buckets.Keys, BucketOf(k, g), g);
    AddRow(after, k, r, g, done);
  }

  lemma AlignedAdd(keys: set<Key>, b: Key, g: Grain)
    requires Aligned(keys, g) && OnGrid(b.ts, g)
    ensures Aligned(keys + {b}, g)
  {
  }

  /** One row per bucket. */
  method FoldAll(buckets: map<Key, Bucket>, g: Grain, ghost done: Table) returns (out: Table)
    requires buckets.Keys == BucketKeys(done, g) && Filled(buckets, done, g)
    ensures out == Recompute(done, g, FoldRows)
  {
    hide BagOf, Slice, FoldRows, Bucket.Fold;
    forall b | b in buckets
      ensures buckets[b].Fold() == FoldRows(Slice(done, b.tpl, b.ts, b.ts + Width(g)))
    {
      FoldRowsPermutation(buckets[b].rows, Slice(done, b.tpl, b.ts, b.ts + Width(g)));
    }
    out := map b | b in buckets :: buckets[b].Fold();
  }

  lemma OneMoreBucket(m: Table, k: Key, r: Row, g: Grain)
    requires k !in m
    ensures BucketKeys(m[k := r], g) == BucketKeys(m, g) + {BucketOf(k, g)}
  {
    hide BucketOf;
  }

  /** The accumulation loop of a rollup tier: reads every row from `floor` on, in
      whatever order the table yields them, and folds one row per bucket. */
  method Aggregate(table: Table, floor: int, g: Grain) returns (out: Table)
    ensures out == Recompute(Since(table, floor), g, FoldRows)
  {
    var buckets: map<Key, Bucket> := map[];
    var todo := set k | k in table && k.ts >= floor;
    ghost var done: Table := map[];
    assert Filled(buckets, done, g) && BucketKeys(done, g) == {};
    assert Aligned(buckets.Keys, g) && Separate(buckets);
    hide *;
    while todo != {}
      invariant forall k :: k in todo <==> k in table && k.ts >= floor && k !in done
      invariant forall k :: k in done ==> k in table && k.ts >= floor && done[k] == table[k]
      invariant buckets.Keys == BucketKeys(done, g) && Aligned(buckets.Keys, g)
      invariant Separate(buckets) && forall b :: b in buckets ==> fresh(buckets[b])
      invariant Filled(buckets, done, g)
    {
      var k :| k in todo;
      buckets := Absorb(buckets, k, table[k], g, done);
      done := done[k := table[k]];
      todo := todo - {k};
    }
    SinceIs(done, table, floor);
    out := FoldAll(buckets, g, done);
  }

  lemma BucketOnGrid(k: Key, g: Grain)
    ensures OnGrid(BucketOf(k, g).ts, g)
  {
    FloorBounds(k.ts, g);
  }

  // --------------------------------------------------------- tier refinement

  /** hourly tier: replacing the buckets from `floor` on by their recompute brings
      a table that matched the log at the last rollup up to date with the log. */
  lemma HourlyCatchesUp(rolled: Table, log: Table, floor: int, from: int)
    requires OnGrid(floor, Hourly) && from <= floor
    requires AgreeBelow(rolled, log, floor) && rolled.Keys <= log.Keys
    ensures Since(HourlyOf(rolled), from) + Recompute(Since(log, floor), Hourly, FoldRows) == Since(HourlyOf(log), from)
  {
    RecomputeSince(log, Hourly, floor, FoldRows);
    Refresh(rolled, log, Hourly, floor, from, FoldRows);
  }

  /** daily tier: refolding the days from the first touched one is enough. */
  lemma DailyCatchesUp(rolled: Table, log: Table, floor: int, dayFloor: int, hourlyFrom: int, dailyFrom: int)
    requires OnGrid(floor, Hourly) && OnGrid(dayFloor, Daily)
    requires AgreeBelow(rolled, log, floor) && rolled.Keys <= log.Keys
    requires forall b :: b in HourlyOf(log) && b.ts >= floor ==> b.ts >= dayFloor
    requires hourlyFrom <= dayFloor && dailyFrom <= dayFloor
    ensures Since(DailyOf(rolled), dailyFrom)
            + Recompute(Since(Since(HourlyOf(log), hourlyFrom), dayFloor), Daily, FoldRows)
            == Since(DailyOf(log), dailyFrom)
  {
    var h, h' := HourlyOf(rolled), HourlyOf(log);
    RecomputeAgreeBelow(rolled, log, Hourly, floor, FoldRows);
    RecomputeGrows(rolled, log, Hourly, FoldRows);
    forall b: Key | b.ts < dayFloor
      ensures (b in h <==> b in h') && (b in h ==> h[b] == h'[b])
    {
    }
    SinceSince(h', hourlyFrom, dayFloor);
    RecomputeSince(h', Daily, dayFloor, FoldRows);
    Refresh(h, h', Daily, dayFloor, dailyFrom, FoldRows);
  }

  /** No hour touched: the hourly table, and so the daily one, was up to date. */
  lemma NothingTouched(rolled: Table, log: Table, floor: int)
    requires OnGrid(floor, Hourly)
    requires AgreeBelow(rolled, log, floor) && rolled.Keys <= log.Keys
    requires Recompute(Since(log, floor), Hourly, FoldRows) == map[]
    ensures HourlyOf(rolled) == HourlyOf(log)
  {
    RecomputeSince(log, Hourly, floor, FoldRows);
    RecomputeAgreeBelow(rolled, log, Hourly, floor, FoldRows);
    RecomputeGrows(rolled, log, Hourly, FoldRows);
    hide Recompute;
    AgreeEverywhere(HourlyOf(rolled), HourlyOf(log), floor);
  }

  lemma AgreeEverywhere(h: Table, h': Table, floor: int)
    requires AgreeBelow(h, h', floor) && h.Keys <= h'.Keys && Since(h', floor) == map[]
    ensures h == h'
  {
    forall b
      ensures (b in h <==> b in h') && (b in h ==> h[b] == h'[b])
    {
      if b.ts >= floor {
        assert b !in Since(h', floor);
      }
    }
  }

  /** What the hour gate guarantees: every raw row past the refold boundary is still
      there, and the log below it has not changed since the last rollup. */
  lemma RefoldBoundary(rolled: Table, log: Table, templates: set<int>, rolledAt: Option<int>, clock: int, floor: int)
    requires LogOk(log, templates, clock) && GrewSince(rolled, log, rolledAt)
    requires rolledAt.Some? ==> 0 <= rolledAt.value
    requires floor == RefoldFrom(if rolledAt.None? then None else Some(rolledAt.value / HOUR))
    ensures OnGrid(floor, Hourly) && AgreeBelow(rolled, log, floor)
    ensures Horizon(rolledAt, RAW_RETENTION) <= floor
    ensures Horizon(rolledAt, HOURLY_RETENTION) <= Floor(floor, Daily)
    ensures Horizon(rolledAt, DAILY_RETENTION) <= Floor(floor, Daily)
  {
    if rolledAt.Some? && rolledAt.value / HOUR != 0 {
      assert floor / HOUR == rolledAt.value / HOUR - 1;
      assert floor <= rolledAt.value - HOUR;
    }
  }

  /** Where a rollup starts rereading the raw tier. */
  function RefoldFrom(sinceHour: Option<int>): int {
    if sinceHour.Some? && sinceHour.value != 0 then (sinceHour.value - 1) * HOUR else 0
  }

  method MinStamp(keys: set<Key>) returns (least: int)
    requires keys != {}
    ensures exists b :: b in keys && b.ts == least
    ensures forall b :: b in keys ==> least <= b.ts
  {
    var b :| b in keys;
    least := b.ts;
    var todo := keys - {b};
    while todo != {}
      invariant todo <= keys
      invariant exists b :: b in keys && b.ts == least
      invariant forall b :: b in keys && b !in todo ==> least <= b.ts
    {
      var c :| c in todo;
      if c.ts < least { least := c.ts; }
      todo := todo - {c};
    }
  }

  // ------------------------------------------------------------------- runs

  /** What a store has been told, however it is cut into tiers. */
  datatype Contents = Contents(templates: set<int>, log: Table, rolled: Table, rolledAt: Option<int>, clock: int)

  datatype Snapshot = Snapshot(rows: seq<Captured>, stamp: int)

  const EMPTY := Contents({}, map[], map[], None, 0)

  function HourOf(rolledAt: Option<int>): Option<int> {
    if rolledAt.None? then None else Some(rolledAt.value / HOUR)
  }

  /** What one capture does to the contents. */
  ghost predicate Stepped(a: Contents, b: Contents, s: Snapshot) {
    && a.clock <= s.stamp == b.clock && b.templates == a.templates + Names(s.rows)
    && Extends(a.log, b.log) && IsPayload(Added(a.log, b.log), s.rows, RecentIn(a.log, s.stamp), s.stamp)
    && (if HourOf(a.rolledAt) == Some(s.stamp / HOUR) then b.rolledAt == a.rolledAt && b.rolled == a.rolled
        else b.rolledAt == Some(s.stamp) && b.rolled == b.log)
  }

  /** The contents after each of a sequence of captures, from an empty file. */
  ghost predicate IsRun(states: seq<Contents>, snapshots: seq<Snapshot>) {
    && |states| == |snapshots| + 1 && states[0] == EMPTY
    && forall i :: 0 <= i < |snapshots| ==> Stepped(states[i], states[i + 1], snapshots[i])
  }

  function Last(states: seq<Contents>): Contents {
    if states == [] then EMPTY else states[|states| - 1]
  }

  ghost predicate Sound(c: Contents) {
    && 0 <= c.clock && LogOk(c.log, c.templates, c.clock) && GrewSince(c.rolled, c.log, c.rolledAt)
    && (c.rolledAt.Some? ==> 0 <= c.rolledAt.value <= c.clock)
  }

  /** No capture is in a later hour than the last rollup. */
  ghost predicate HoursRolled(c: Contents) {
    forall k :: k in c.log ==> c.rolledAt.Some? && k.ts / HOUR <= c.rolledAt.value / HOUR
  }

  lemma StepIsSound(a: Contents, b: Contents, s: Snapshot)
    requires Sound(a) && Stepped(a, b, s)
    ensures Sound(b)
  {
    hide LogOk, IsPayload, RecentIn, Extends, Added, GrewSince;
    var payload := Added(a.log, b.log);
    PayloadIsFresh(a.log, s.rows, s.stamp, payload);
    hide IsFresh;
    AddKeepsLogOk(a.log, a.templates, a.clock, payload, Names(s.rows), s.stamp);
    AddFollows(a.log, payload, Names(s.rows), s.stamp, a.rolledAt, a.rolled);
    WholeIsSum(a.log, b.log);
    NothingNew(b.log, s.stamp);
  }

  lemma WholeIsSum(m: Table, m': Table)
    requires Extends(m, m')
    ensures m + Added(m, m') == m'
  {
  }

  lemma StepRollsHours(a: Contents, b: Contents, s: Snapshot)
    requires Sound(a) && HoursRolled(a) && Stepped(a, b, s)
    ensures HoursRolled(b)
  {
    forall k | k in b.log ensures b.rolledAt.Some? && k.ts / HOUR <= b.rolledAt.value / HOUR {
      if k in a.log {
        assert k.ts <= s.stamp;
      } else {
        assert k in Added(a.log, b.log);
      }
    }
  }

  lemma {:induction false} RunIsSound(states: seq<Contents>, snapshots: seq<Snapshot>)
    requires IsRun(states, snapshots)
    ensures Sound(Last(states)) && HoursRolled(Last(states))
  {
    var n := |snapshots|;
    if n == 0 {
      assert LogOk(map[], {}, 0) && GrewSince(map[], map[], None);
    } else {
      assert Stepped(states[n - 1], states[n], snapshots[n - 1]);
      hide Stepped, Sound, HoursRolled;
      RunIsSound(states[..n], snapshots[..n - 1]);
      StepIsSound(states[n - 1], states[n], snapshots[n - 1]);
      StepRollsHours(states[n - 1], states[n], snapshots[n - 1]);
    }
  }

  lemma RunGrows(states: seq<Contents>, snapshots: seq<Snapshot>, next: Contents, s: Snapshot)
    requires IsRun(states, snapshots) && Stepped(Last(states), next, s)
    ensures IsRun(states + [next], snapshots + [s])
  {
    hide Stepped;
  }

  /** The tiers that go with the contents. */
  ghost function RawTier(c: Contents): Table {
    Since(c.log, Horizon(c.rolledAt, RAW_RETENTION))
  }

  ghost function HourlyTier(c: Contents): Table {
    Since(HourlyOf(c.rolled), Horizon(c.rolledAt, HOURLY_RETENTION))
  }

  // ------------------------------------------------------------------ store

  class Store {
    var templates: set<int>
    var raw: Table
    var hourly: Table
    var daily: Table
    var lastRollupHour: Option<int>

    /** Every point ever captured, which the tiers have to agree with. */
    ghost var log: Table
    /** The log as it was at the last rollup. */
    ghost var rolled: Table
    ghost var rolledAt: Option<int>
    ghost var clock: int
    /** The captures so far, and the contents after each of them. */
    ghost var states: seq<Contents>
    ghost var snapshots: seq<Snapshot>

    ghost function State(): Contents
      reads this
    {
      Contents(templates, log, rolled, rolledAt, clock)
    }

    /** The store is where a run of captures has brought it. */
    ghost predicate Traced()
      reads this
    {
      Valid() && IsRun(states, snapshots) && Last(states) == State()
    }

    ghost predicate Valid()
      reads this
    {
      && 0 <= clock
      && LogOk(log, templates, clock)
      && GrewSince(rolled, log, rolledAt)
      && (rolledAt.Some? ==> 0 <= rolledAt.value <= clock)
      && lastRollupHour == HourOf(rolledAt)
      && TiersOk()
    }

    /** Each tier is the full recompute from the log, cut at its horizon. */
    ghost predicate TiersOk()
      reads this
    {
      && raw == Since(log, Horizon(rolledAt, RAW_RETENTION))
      && hourly == Since(HourlyOf(rolled), Horizon(rolledAt, HOURLY_RETENTION))
      && daily == Since(DailyOf(rolled), Horizon(rolledAt, DAILY_RETENTION))
    }

    constructor ()
      ensures Traced() && log == map[] && rolledAt == None && clock == 0 && templates == {}
    {
      templates, raw, hourly, daily, lastRollupHour := {}, map[], map[], map[], None;
      log, rolled, rolledAt, clock := map[], map[], None, 0;
      states, snapshots := [EMPTY], [];
    }

    /** raw -> hourly: refolds every hour from `floor` on. */
    method RollHourly(floor: int) returns (touched: Table)
      requires Valid() && floor == RefoldFrom(lastRollupHour)
      modifies `hourly
      ensures touched == Recompute(Since(log, floor), Hourly, FoldRows)
      ensures hourly == Since(HourlyOf(log), Horizon(rolledAt, HOURLY_RETENTION))
    {
      RefoldBoundary(rolled, log, templates, rolledAt, clock, floor);
      SinceSince(log, Horizon(rolledAt, RAW_RETENTION), floor);
      HourlyCatchesUp(rolled, log, floor, Horizon(rolledAt, HOURLY_RETENTION));
      hide Recompute, Floor, HourlyOf, DailyOf, LogOk;
      touched := Aggregate(raw, floor, Hourly);
      hourly := hourly + touched;
    }

    /** hourly -> daily: refolds every day that contains a touched hour. */
    method RollDaily(floor: int, touched: Table) returns (refolded: Table)
      requires 0 <= clock && LogOk(log, templates, clock) && GrewSince(rolled, log, rolledAt)
      requires rolledAt.Some? ==> 0 <= rolledAt.value
      requires floor == RefoldFrom(if rolledAt.None? then None else Some(rolledAt.value / HOUR))
      requires touched == Recompute(Since(log, floor), Hourly, FoldRows) && touched != map[]
      requires hourly == Since(HourlyOf(log), Horizon(rolledAt, HOURLY_RETENTION))
      requires daily == Since(DailyOf(rolled), Horizon(rolledAt, DAILY_RETENTION))
      modifies `daily
      ensures daily == Since(DailyOf(log), Horizon(rolledAt, DAILY_RETENTION))
    {
      hide *;
      RefoldBoundary(rolled, log, templates, rolledAt, clock, floor);
      Grows(rolled, log, rolledAt);
      var least := MinStamp(touched.Keys);
      var dayFloor := Floor(least, Daily);
      TouchedDays(log, floor, touched, least);
      DailyCatchesUp(rolled, log, floor, dayFloor, Horizon(rolledAt, HOURLY_RETENTION),
                     Horizon(rolledAt, DAILY_RETENTION));
      refolded := Aggregate(hourly, dayFloor, Daily);
      daily := daily + refolded;
    }

    /** raw -> hourly -> daily, rereading raw only from the hour before the last
        rolled one. */
    method Rollup(sinceHour: Option<int>) returns (hours: nat, days: nat)
      requires Valid() && sinceHour == lastRollupHour
      modifies `hourly, `daily
      ensures hourly == Since(HourlyOf(log), Horizon(rolledAt, HOURLY_RETENTION))
      ensures daily == Since(DailyOf(log), Horizon(rolledAt, DAILY_RETENTION))
    {
      hide Recompute, Floor, HourlyOf, DailyOf, LogOk, GrewSince, RefoldFrom, Since;
      var floor := RefoldFrom(sinceHour);
      RefoldBoundary(rolled, log, templates, rolledAt, clock, floor);
      Grows(rolled, log, rolledAt);
      var touched := RollHourly(floor);
      if touched == map[] {
        NothingTouched(rolled, log, floor);
        SameDays(rolled, log);
        return 0, 0;
      }
      var refolded := RollDaily(floor, touched);
      return |touched|, |refolded|;
    }

    /** Drops everything past each tier's retention: one range delete on raw, one
        per template on the two coarser tiers. */
    method Prune(now: int) returns (rawDropped: nat, hourlyDropped: nat, dailyDropped: nat)
      requires Named(hourly, templates) && Named(daily, templates)
      modifies `raw, `hourly, `daily
      ensures raw == Since(old(raw), now - RAW_RETENTION)
      ensures hourly == Since(old(hourly), now - HOURLY_RETENTION)
      ensures daily == Since(old(daily), now - DAILY_RETENTION)
      ensures forall k :: k in raw <==> k in old(raw) && now - 48 * 3600 <= k.ts
      ensures forall k :: k in hourly <==> k in old(hourly) && now - 60 * 86400 <= k.ts
      ensures forall k :: k in daily <==> k in old(daily) && now - 365 * 86400 <= k.ts
      ensures rawDropped == |old(raw)| - |raw|
      ensures hourlyDropped == |old(hourly)| - |hourly| && dailyDropped == |old(daily)| - |daily|
    {
      var kept := Since(raw, now - RAW_RETENTION);
      SinceSmaller(raw, now - RAW_RETENTION);
      rawDropped := |raw| - |kept|;
      raw := kept;
      hourly, hourlyDropped := PruneByTemplate(hourly, templates, now - HOURLY_RETENTION);
      daily, dailyDropped := PruneByTemplate(daily, templates, now - DAILY_RETENTION);
    }

    /** Rolls up everything captured so far, then prunes. */
    method RollAndPrune(now: int)
      requires Valid() && clock <= now
      modifies `raw, `hourly, `daily
      ensures raw == Since(log, now - RAW_RETENTION)
      ensures hourly == Since(HourlyOf(log), now - HOURLY_RETENTION)
      ensures daily == Since(DailyOf(log), now - DAILY_RETENTION)
    {
      hide Recompute, HourlyOf, DailyOf, Since, Floor, LogOk, GrewSince, Horizon, Named, Inhabits;
      CutsAgree(log, templates, clock, rolledAt, now);
      var _, _ := Rollup(lastRollupHour);
      var _, _, _ := Prune(now);
    }

    /** The once-an-hour gate. */
    method MaybeRollup(now: int) returns (ran: bool)
      requires Valid() && clock <= now
      modifies `raw, `hourly, `daily, `lastRollupHour, `rolled, `rolledAt, `clock
      ensures Valid() && clock == now && log == old(log)
      ensures ran <==> old(lastRollupHour) != Some(now / 3600)
      ensures lastRollupHour == Some(now / 3600)
      ensures ran ==> rolledAt == Some(now) && rolled == log
      ensures !ran ==> rolledAt == old(rolledAt) && rolled == old(rolled)
    {
      hide Recompute, HourlyOf, DailyOf, Since, Floor, LogOk, GrewSince;
      LogLater(log, templates, clock, now);
      var hour := now / HOUR;
      if lastRollupHour == Some(hour) {
        clock := now;
        return false;
      }
      RollAndPrune(now);
      NothingNew(log, now);
      lastRollupHour := Some(hour);
      rolled, rolledAt, clock := log, Some(now), now;
      return true;
    }

    /** Stores a payload in the raw tier and interns its templates. */
    method Append(payload: Table, names: set<int>, stamp: int)
      requires Valid() && clock <= stamp && IsFresh(payload, log, names, stamp)
      modifies `templates, `raw, `log, `clock
      ensures Valid() && clock == stamp && log == old(log) + payload && templates == old(templates) + names
    {
      hide Recompute, HourlyOf, DailyOf, IsFresh, LogOk, GrewSince, Since, Horizon;
      AddKeepsLogOk(log, templates, clock, payload, names, stamp);
      AddFollows(log, payload, names, stamp, rolledAt, rolled);
      templates := templates + names;
      raw := raw + payload;
      log := log + payload;
      clock := stamp;
    }

    /** Persists one raw point per template, throttled, then rolls up if the hour
        has turned. Returns the number of points written. */
    method Capture(rows: seq<Captured>, stamp: int) returns (written: nat)
      requires Valid() && clock <= stamp
      modifies this
      ensures Valid() && Stepped(old(State()), State(), Snapshot(rows, stamp))
      ensures written == |Added(old(log), log)|
      ensures forall k :: k in old(log) ==> k in log && log[k] == old(log)[k]
      ensures forall k :: k in log && k !in old(log) ==>
                k.ts == stamp && Quiet(old(log), k.tpl, stamp)
                && exists i :: 0 <= i < |rows| && rows[i].tpl == Some(k.tpl) && log[k] == Row(rows[i].point, 1)
                               && forall j :: 0 <= j < i ==> rows[j].tpl != Some(k.tpl)
      ensures forall i :: 0 <= i < |rows| && rows[i].tpl.Some? && Quiet(old(log), rows[i].tpl.value, stamp) ==>
                Key(rows[i].tpl.value, stamp) in log
      ensures states == old(states) + [State()] && snapshots == old(snapshots) + [Snapshot(rows, stamp)]
      ensures old(Traced()) ==> Traced()
    {
      hide Stepped, IsRun, LogOk, GrewSince, Added, Since, HourlyOf, DailyOf, Horizon;
      ghost var before := State();
      ghost var ran, told := states, snapshots;
      written := Record(rows, stamp);
      WhatIsStored(before, State(), rows, stamp);
      if IsRun(ran, told) && Last(ran) == before {
        RunGrows(ran, told, State(), Snapshot(rows, stamp));
      }
      states, snapshots := states + [State()], snapshots + [Snapshot(rows, stamp)];
    }

    method Record(rows: seq<Captured>, stamp: int) returns (written: nat)
      requires Valid() && clock <= stamp
      modifies `templates, `raw, `hourly, `daily, `lastRollupHour, `log, `rolled, `rolledAt, `clock
      ensures Valid() && Stepped(old(State()), State(), Snapshot(rows, stamp))
      ensures written == |Added(old(log), log)|
    {
      hide Recompute, HourlyOf, DailyOf, RecentIn, IsFresh, IsPayload, LogOk, GrewSince, Since, Horizon, Extends,
           Added, Names;
      RecentInRaw(log, templates, clock, rolledAt, stamp);
      var recent := set k | k in raw && k.ts >= stamp - MIN_INTERVAL :: k.tpl;
      var payload := BuildPayload(rows, recent, stamp);
      PayloadIsFresh(log, rows, stamp, payload);
      AddExtends(log, payload, Names(rows), stamp);
      Append(payload, Names(rows), stamp);
      written := |payload|;
      var _ := MaybeRollup(stamp);
    }
  }

  /** No capture of the template in the ten minutes up to the moment. */
  ghost predicate Quiet(log: Table, tpl: int, stamp: int) {
    forall ts :: stamp - 10 * 60 <= ts ==> Key(tpl, ts) !in log
  }

  /** The rows a capture stores: the first of each named template, where there was none
      in the last ten minutes. */
  lemma WhatIsStored(a: Contents, b: Contents, rows: seq<Captured>, stamp: int)
    requires Stepped(a, b, Snapshot(rows, stamp))
    ensures forall k :: k in a.log ==> k in b.log && b.log[k] == a.log[k]
    ensures forall k :: k in b.log && k !in a.log ==>
              k.ts == stamp && Quiet(a.log, k.tpl, stamp)
              && exists i :: 0 <= i < |rows| && rows[i].tpl == Some(k.tpl) && b.log[k] == Row(rows[i].point, 1)
                             && forall j :: 0 <= j < i ==> rows[j].tpl != Some(k.tpl)
    ensures forall i :: 0 <= i < |rows| && rows[i].tpl.Some? && Quiet(a.log, rows[i].tpl.value, stamp) ==>
              Key(rows[i].tpl.value, stamp) in b.log
  {
    forall tpl ensures tpl in RecentIn(a.log, stamp) <==> !Quiet(a.log, tpl, stamp) {
      if tpl in RecentIn(a.log, stamp) {
        var k :| k in a.log && k.ts >= stamp - MIN_INTERVAL && k.tpl == tpl;
        assert Key(tpl, k.ts) in a.log;
      }
    }
    hide RecentIn, Quiet;
    forall k | k in b.log && k !in a.log
      ensures exists i :: 0 <= i < |rows| && rows[i].tpl == Some(k.tpl) && b.log[k] == Row(rows[i].point, 1)
                          && forall j :: 0 <= j < i ==> rows[j].tpl != Some(k.tpl)
    {
      assert k in Added(a.log, b.log);
      var i :| IsFirst(rows, i, k.tpl) && b.log[k] == Row(rows[i].point, 1);
    }
  }

  function Names(rows: seq<Captured>): set<int> {
    set i | 0 <= i < |rows| && rows[i].tpl.Some? :: rows[i].tpl.value
  }

  ghost function RecentIn(log: Table, stamp: int): set<int> {
    set k | k in log && k.ts >= stamp - MIN_INTERVAL :: k.tpl
  }

  ghost predicate Extends(m: Table, m': Table) {
    m.Keys <= m'.Keys && forall k :: k in m ==> m[k] == m'[k]
  }

  ghost function Added(m: Table, m': Table): Table {
    map k | k in m' && k !in m :: m'[k]
  }

  /** The throttle looks at the raw tier only; nothing that recent was pruned. */
  lemma RecentInRaw(log: Table, templates: set<int>, clock: int, rolledAt: Option<int>, stamp: int)
    requires LogOk(log, templates, clock) && clock <= stamp && (rolledAt.Some? ==> rolledAt.value <= clock)
    ensures (set k | k in Since(log, Horizon(rolledAt, RAW_RETENTION)) && k.ts >= stamp - MIN_INTERVAL :: k.tpl)
            == RecentIn(log, stamp)
  {
  }

  lemma PayloadStep(payload: Table, rows: seq<Captured>, row: Captured, recent: set<int>, stamp: int)
    requires IsPayload(payload, rows, recent, stamp)
    ensures var due := row.tpl.Some? && row.tpl.value !in recent && Key(row.tpl.value, stamp) !in payload;
            IsPayload(if due then payload[Key(row.tpl.value, stamp) := Row(row.point, 1)] else payload,
                      rows + [row], recent, stamp)
  {
    var due := row.tpl.Some? && row.tpl.value !in recent && Key(row.tpl.value, stamp) !in payload;
    var after := if due then payload[Key(row.tpl.value, stamp) := Row(row.point, 1)] else payload;
    forall k | k in after
      ensures k.ts == stamp && k.tpl !in recent
      ensures exists i :: IsFirst(rows + [row], i, k.tpl) && after[k] == Row((rows + [row])[i].point, 1)
    {
      if k in payload {
        var i :| IsFirst(rows, i, k.tpl) && payload[k] == Row(rows[i].point, 1);
        assert IsFirst(rows + [row], i, k.tpl);
      } else {
        forall j | 0 <= j < |rows|
          ensures rows[j].tpl != row.tpl
        {
          assert rows[j].tpl.Some? && rows[j].tpl.value !in recent ==> Key(rows[j].tpl.value, stamp) in payload;
        }
        assert IsFirst(rows + [row], |rows|, k.tpl);
      }
    }
  }

  /** Every row of a payload is new, stamped now, and clear of the throttle. */
  ghost predicate IsFresh(payload: Table, log: Table, names: set<int>, stamp: int) {
    && (forall k :: k in payload ==> k.ts == stamp && k.tpl in names && payload[k].samples == 1)
    && (forall k, k' :: k in payload && k' in log && k'.tpl == k.tpl ==> k'.ts < stamp - MIN_INTERVAL)
  }

  lemma PayloadIsFresh(log: Table, rows: seq<Captured>, stamp: int, payload: Table)
    requires IsPayload(payload, rows, RecentIn(log, stamp), stamp)
    ensures IsFresh(payload, log, Names(rows), stamp)
  {
    forall k | k in payload
      ensures k.tpl in Names(rows) && payload[k].samples == 1
    {
      var i :| IsFirst(rows, i, k.tpl) && payload[k] == Row(rows[i].point, 1);
      assert rows[i].tpl.value in Names(rows);
    }
    forall k, k' | k in payload && k' in log && k'.tpl == k.tpl
      ensures k'.ts < stamp - MIN_INTERVAL
    {
      assert k.tpl !in RecentIn(log, stamp);
    }
  }

  lemma AddKeepsLogOk(log: Table, templates: set<int>, clock: int, payload: Table, names: set<int>, stamp: int)
    requires 0 <= clock <= stamp && LogOk(log, templates, clock) && IsFresh(payload, log, names, stamp)
    ensures LogOk(log + payload, templates + names, stamp)
  {
  }

  lemma AddExtends(log: Table, payload: Table, names: set<int>, stamp: int)
    requires IsFresh(payload, log, names, stamp)
    ensures Extends(log, log + payload) && Added(log, log + payload) == payload
  {
    forall k | k in payload ensures k !in log {
      assert k in log ==> k.ts < stamp - MIN_INTERVAL;
    }
  }

  /** The raw tier and the growth bookkeeping follow the log. */
  lemma AddFollows(log: Table, payload: Table, names: set<int>, stamp: int, rolledAt: Option<int>, rolled: Table)
    requires IsFresh(payload, log, names, stamp) && 0 <= stamp
    requires GrewSince(rolled, log, rolledAt) && (rolledAt.Some? ==> rolledAt.value <= stamp)
    ensures GrewSince(rolled, log + payload, rolledAt)
    ensures Since(log, Horizon(rolledAt, RAW_RETENTION)) + payload
              == Since(log + payload, Horizon(rolledAt, RAW_RETENTION))
  {
    forall k | k in payload ensures k !in log {
      assert k in log ==> k.ts < stamp - MIN_INTERVAL;
    }
  }

  /** Walks the snapshot, keeping the first row of each template that is due. */
  method BuildPayload(rows: seq<Captured>, recent: set<int>, stamp: int) returns (payload: Table)
    ensures IsPayload(payload, rows, recent, stamp)
  {
    payload := map[];
    for n := 0 to |rows|
      invariant IsPayload(payload, rows[..n], recent, stamp)
    {
      var due := rows[n].tpl.Some? && rows[n].tpl.value !in recent && Key(rows[n].tpl.value, stamp) !in payload;
      PayloadStep(payload, rows[..n], rows[n], recent, stamp);
      assert rows[..n + 1] == rows[..n] + [rows[n]];
      if due {
        payload := payload[Key(rows[n].tpl.value, stamp) := Row(rows[n].point, 1)];
      }
    }
    assert rows[..|rows|] == rows;
  }

  lemma NothingNew(log: Table, now: int)
    ensures GrewSince(log, log, Some(now))
  {
  }

  ghost predicate Named(m: Table, templates: set<int>) {
    forall k :: k in m ==> k.tpl in templates
  }

  ghost function PartlyPruned(m: Table, todo: set<int>, before: int): Table {
    map k | k in m && (k.tpl in todo || k.ts >= before) :: m[k]
  }

  lemma PruneStep(m: Table, todo: set<int>, tpl: int, before: int, gone: set<Key>)
    requires tpl in todo
    requires gone == set k | k in PartlyPruned(m, todo, before) && k.tpl == tpl && k.ts < before
    ensures PartlyPruned(m, todo, before) - gone == PartlyPruned(m, todo - {tpl}, before)
  {
  }

  method PruneByTemplate(m: Table, templates: set<int>, before: int) returns (kept: Table, dropped: nat)
    requires Named(m, templates)
    ensures kept == Since(m, before)
    ensures dropped == |m| - |kept|
  {
    kept, dropped := m, 0;
    var todo := templates;
    while todo != {}
      invariant todo <= templates
      invariant kept == PartlyPruned(m, todo, before)
      invariant dropped == |m| - |kept|
    {
      EmptyOrMember(todo);
      var tpl :| tpl in todo;
      var gone := set k | k in kept && k.tpl == tpl && k.ts < before;
      Removed(kept, gone);
      PruneStep(m, todo, tpl, before, gone);
      dropped := dropped + |gone|;
      kept := kept - gone;
      todo := todo - {tpl};
    }
  }

  lemma Removed(m: Table, gone: set<Key>)
    requires gone <= m.Keys
    ensures |m - gone| == |m| - |gone|
  {
    assert (m - gone).Keys == m.Keys - gone;
    assert |m.Keys| == |m| && |(m - gone).Keys| == |m - gone|;
    assert m.Keys == (m.Keys - gone) + gone;
  }

  lemma SinceSmaller(m: Table, from: int)
    ensures |Since(m, from)| <= |m|
  {
    var gone := set k | k in m && k.ts < from;
    Removed(m, gone);
    assert m - gone == Since(m, from);
  }

  lemma LogLater(log: Table, templates: set<int>, clock: int, now: int)
    requires LogOk(log, templates, clock) && clock <= now
    ensures LogOk(log, templates, now)
  {
  }

  ghost predicate Inhabits(m: Table, templates: set<int>) {
    forall k :: k in m ==> k.tpl in templates && 0 <= k.ts
  }

  lemma RecomputeInhabits(m: Table, templates: set<int>, g: Grain, fold: Fold)
    requires Inhabits(m, templates)
    ensures Inhabits(Recompute(m, g, fold), templates)
  {
    forall b | b in Recompute(m, g, fold)
      ensures b.tpl in templates && 0 <= b.ts
    {
      RecomputeKeys(m, b, g, fold);
      assert Occupied(m, b, g);
      var ts :| b.ts <= ts < b.ts + Width(g) && Key(b.tpl, ts) in m;
      FloorUnique(ts, b.ts, g);
      FloorMonotone(0, ts, g);
    }
  }

  lemma RolledTiersInherit(log: Table, templates: set<int>, clock: int)
    requires LogOk(log, templates, clock)
    ensures Inhabits(log, templates) && Inhabits(HourlyOf(log), templates) && Inhabits(DailyOf(log), templates)
  {
    RecomputeInhabits(log, templates, Hourly, FoldRows);
    RecomputeInhabits(HourlyOf(log), templates, Daily, FoldRows);
  }

  /** Cutting a tier at its old horizon first makes no difference to the new cut. */
  lemma CutAgain(m: Table, templates: set<int>, rolledAt: Option<int>, retention: int, now: int)
    requires Inhabits(m, templates) && (rolledAt.Some? ==> rolledAt.value <= now)
    ensures Since(Since(m, Horizon(rolledAt, retention)), now - retention) == Since(m, now - retention)
    ensures Named(Since(m, Horizon(rolledAt, retention)), templates)
  {
  }

  lemma CutsAgree(log: Table, templates: set<int>, clock: int, rolledAt: Option<int>, now: int)
    requires LogOk(log, templates, clock) && (rolledAt.Some? ==> rolledAt.value <= now)
    ensures Since(Since(log, Horizon(rolledAt, RAW_RETENTION)), now - RAW_RETENTION) == Since(log, now - RAW_RETENTION)
    ensures Since(Since(HourlyOf(log), Horizon(rolledAt, HOURLY_RETENTION)), now - HOURLY_RETENTION)
            == Since(HourlyOf(log), now - HOURLY_RETENTION)
    ensures Since(Since(DailyOf(log), Horizon(rolledAt, DAILY_RETENTION)), now - DAILY_RETENTION)
            == Since(DailyOf(log), now - DAILY_RETENTION)
    ensures Named(Since(HourlyOf(log), Horizon(rolledAt, HOURLY_RETENTION)), templates)
    ensures Named(Since(DailyOf(log), Horizon(rolledAt, DAILY_RETENTION)), templates)
  {
    hide Recompute, HourlyOf, DailyOf, Since, Horizon, Named, Inhabits;
    RolledTiersInherit(log, templates, clock);
    CutAgain(log, templates, rolledAt, RAW_RETENTION, now);
    CutAgain(HourlyOf(log), templates, rolledAt, HOURLY_RETENTION, now);
    CutAgain(DailyOf(log), templates, rolledAt, DAILY_RETENTION, now);
  }

  lemma Grows(rolled: Table, log: Table, rolledAt: Option<int>)
    requires GrewSince(rolled, log, rolledAt)
    ensures rolled.Keys <= log.Keys
  {
  }

  lemma SameDays(m: Table, m': Table)
    requires HourlyOf(m) == HourlyOf(m')
    ensures DailyOf(m) == DailyOf(m')
  {
  }

  /** Every touched hour lies in a refolded day. */
  lemma TouchedDays(log: Table, floor: int, touched: Table, least: int)
    requires OnGrid(floor, Hourly) && touched == Recompute(Since(log, floor), Hourly, FoldRows)
    requires exists b :: b in touched && b.ts == least
    requires forall b :: b in touched ==> least <= b.ts
    ensures floor <= least && Floor(floor, Daily) <= Floor(least, Daily) <= least
    ensures OnGrid(Floor(least, Daily), Daily)
    ensures forall b :: b in HourlyOf(log) && b.ts >= floor ==> b.ts >= Floor(least, Daily)
  {
    RecomputeSince(log, Hourly, floor, FoldRows);
    FloorBounds(least, Daily);
    FloorMonotone(floor, least, Daily);
    hide Recompute, Floor;
    assert touched == Since(HourlyOf(log), floor);
    forall b | b in HourlyOf(log) && b.ts >= floor
      ensures b.ts >= Floor(least, Daily)
    {
      assert b in touched;
    }
  }
}
