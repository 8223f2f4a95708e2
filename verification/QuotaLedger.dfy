/** Rolling-window caps with reserve-then-settle: the one ledger behind the
    refinery, transfer and gift limits. An attempt is reserved as a pending row in
    the write that sums the window; pending rows count until they expire; the
    writer's verdict settles them. */
module QuotaLedger {
  import opened Wrappers

  /** A column the caps never look at. */
  datatype Fact = Null | Num(n: int) | Text(s: string)

  type Facts = map<string, Fact>

  /** A column a verdict may stamp, and the names the writer may use for it. */
  datatype Column = Column(name: string, aliases: seq<string>, width: nat)

  datatype Status = Pending | Applied | Replay | Deferred | Refused | Failed

  /** `actor` spends the allowance; `target` is the second cap key (the recipient of
      a transfer or gift, the output template of an exchange). An exempt row, a gift
      to oneself, is recorded but never counted. */
  datatype Row = Row(
    created: int, actor: string, target: string, weight: nat, exempt: bool,
    status: Status, settled: Option<int>, reason: Option<string>, facts: Facts)

  type Rows = map<string, Row>

  /** What distinguishes the three ledgers. */
  datatype Policy = Policy(
    window: nat, ttl: nat, actorCap: Option<nat>, pairCap: nat, countsReplay: bool, columns: seq<Column>)

  datatype Attempt = Attempt(
    key: string, actor: string, target: string, weight: nat, exempt: bool, facts: Facts)

  datatype Verdict = Reserved | Known | OverActorCap | OverPairCap

  // ------------------------------------------------------------------ windows

  /** A selection of rows: by cap keys and by creation time, both ends included. */
  datatype Selection = Selection(actors: set<string>, targets: Option<set<string>>, from: int, upTo: Option<int>)

  /** Consumed for good. */
  predicate Spent(p: Policy, r: Row) {
    !r.exempt && (r.status == Applied || (r.status == Replay && p.countsReplay))
  }

  /** Counts against the caps: consumed, or reserved and not yet expired. */
  predicate Live(p: Policy, r: Row, now: int) {
    Spent(p, r) || (!r.exempt && r.status == Pending && r.created >= now - p.ttl)
  }

  predicate Picks(s: Selection, r: Row) {
    && r.actor in s.actors
    && (s.targets.Some? ==> r.target in s.targets.value)
    && s.from <= r.created
    && (s.upTo.Some? ==> r.created <= s.upTo.value)
  }

  // --------------------------------------------------------------------- sums

  /** Sum of a finite map of weights. */
  ghost function Total(m: map<string, nat>): nat
    decreases |m|
  {
    if m == map[] then 0
    else
      var k :| k in m;
      m[k] + Total(m - {k})
  }

  /** Any entry may be taken out first. */
  lemma {:induction false} TotalRemove(m: map<string, nat>, k: string)
    requires k in m
    ensures Total(m) == m[k] + Total(m - {k})
    decreases |m|
  {
    var j :| j in m && Total(m) == m[j] + Total(m - {j});
    if j != k {
      TotalRemove(m - {j}, k);
      TotalRemove(m - {k}, j);
      assert m - {j} - {k} == m - {k} - {j};
    }
  }

  lemma {:induction false} TotalPart(a: map<string, nat>, b: map<string, nat>)
    requires forall k :: k in a ==> k in b && a[k] == b[k]
    ensures Total(a) <= Total(b)
    decreases |a|
  {
    if a != map[] {
      var k :| k in a;
      TotalRemove(a, k);
      TotalRemove(b, k);
      TotalPart(a - {k}, b - {k});
    }
  }

  ghost function LiveWeights(p: Policy, rows: Rows, s: Selection, now: int): map<string, nat> {
    map k | k in rows && Picks(s, rows[k]) && Live(p, rows[k], now) :: rows[k].weight
  }

  /** What a selection has used up at a moment. */
  ghost function Used(p: Policy, rows: Rows, s: Selection, now: int): nat {
    Total(LiveWeights(p, rows, s, now))
  }

  ghost function SpentWeights(p: Policy, rows: Rows, s: Selection): map<string, nat> {
    map k | k in rows && Picks(s, rows[k]) && Spent(p, rows[k]) :: rows[k].weight
  }

  /** What a selection has consumed for good. */
  ghost function SpentTotal(p: Policy, rows: Rows, s: Selection): nat {
    Total(SpentWeights(p, rows, s))
  }

  /** The sum the cap check runs: every row of the table, in whatever order. */
  method SumLive(p: Policy, rows: Rows, s: Selection, now: int) returns (sum: nat)
    ensures sum == Used(p, rows, s, now)
  {
    sum := 0;
    var todo := rows.Keys;
    ghost var seen: map<string, nat> := map[];
    while todo != {}
      invariant todo <= rows.Keys
      invariant seen == map k | k in rows && k !in todo && Picks(s, rows[k]) && Live(p, rows[k], now) :: rows[k].weight
      invariant sum == Total(seen)
    {
      var k :| k in todo;
      if Picks(s, rows[k]) && Live(p, rows[k], now) {
        sum := sum + rows[k].weight;
        TotalRemove(seen[k := rows[k].weight], k);
        assert seen[k := rows[k].weight] - {k} == seen;
        seen := seen[k := rows[k].weight];
      }
      todo := todo - {k};
    }
    assert seen == LiveWeights(p, rows, s, now);
  }

  // -------------------------------------------------------------------- steps

  /** The allowance check looks back one window from the moment it was asked; every
      quota key of an identity is summed with the key the row is stored under. */
  function ActorWindow(p: Policy, actors: set<string>, asked: int): Selection {
    Selection(actors, None, asked - p.window, None)
  }

  function PairWindow(p: Policy, actors: set<string>, targets: set<string>, asked: int): Selection {
    Selection(actors, Some(targets), asked - p.window, None)
  }

  predicate InFlight(rows: Rows, key: string) {
    key in rows && (rows[key].status == Applied || rows[key].status == Replay || rows[key].status == Pending)
  }

  ghost function Decide(p: Policy, rows: Rows, a: Attempt, actors: set<string>, targets: set<string>,
        asked: int): Verdict {
    if InFlight(rows, a.key) then Known
    else if a.exempt then Reserved
    else if p.actorCap.Some? && Used(p, rows, ActorWindow(p, actors, asked), asked) + a.weight > p.actorCap.value
    then OverActorCap
    else if Used(p, rows, PairWindow(p, actors, targets, asked), asked) + a.weight > p.pairCap
    then OverPairCap
    else Reserved
  }

  /** A pass overwrites whatever refused row the key had; columns the attempt does
      not name keep their old value. */
  function PutPending(rows: Rows, a: Attempt, now: int): Rows {
    var kept := if a.key in rows then rows[a.key].facts else map[];
    rows[a.key := Row(now, a.actor, a.target, a.weight, a.exempt, Pending, None, None, kept + a.facts)]
  }

  /** A refusal leaves a trace: a new row, or a stamp on the old one. */
  function PutRefused(rows: Rows, a: Attempt, reason: string, now: int): Rows {
    rows[a.key :=
      if a.key in rows then rows[a.key].(status := Refused, reason := Some(Cut(reason, 500)), settled := Some(now))
      else Row(now, a.actor, a.target, a.weight, a.exempt, Refused, Some(now), Some(Cut(reason, 500)), a.facts)]
  }

  ghost function AfterReserve(p: Policy, rows: Rows, v: Verdict, a: Attempt, reason: string, now: int): Rows {
    match v
    case Known => rows
    case Reserved => PutPending(rows, a, now)
    case _ => PutRefused(rows, a, reason, now)
  }

  /** Stored text is cut to the column's width. */
  function Cut(text: string, width: nat): string {
    if |text| <= width then text else text[..width]
  }

  function Shorten(fact: Fact, width: nat): Fact {
    if fact.Text? then Text(Cut(fact.s, width)) else fact
  }

  /** The first of a column's names that the writer's answer carries. */
  function FirstPresent(aliases: seq<string>, facts: Facts): Option<Fact> {
    if aliases == [] then None
    else if aliases[0] in facts then Some(facts[aliases[0]])
    else FirstPresent(aliases[1..], facts)
  }

  /** What a verdict stamps: one value for each listed column it names. */
  function Stamps(columns: seq<Column>, facts: Facts): (stamps: Facts)
    ensures forall c :: c in stamps ==> exists i :: 0 <= i < |columns| && columns[i].name == c
  {
    if columns == [] then map[]
    else
      var later := Stamps(columns[1..], facts);
      match FirstPresent(columns[0].aliases, facts)
      case None => later
      case Some(value) => later[columns[0].name := Shorten(value, columns[0].width)]
  }

  function CutReason(reason: string): Option<string> {
    if reason == "" then None else Some(Cut(reason, 500))
  }

  /** Only a pending row can be closed, and only listed columns are stamped; an
      unknown status changes nothing. */
  function AfterSettle(p: Policy, rows: Rows, key: string, status: Option<Status>, reason: string,
                       facts: Facts, now: int): Rows {
    if status.None? || key !in rows || rows[key].status != Pending then rows
    else
      rows[key := rows[key].(status := status.value, reason := CutReason(reason), settled := Some(now),
                             facts := rows[key].facts + Stamps(p.columns, facts))]
  }

  // ------------------------------------------------------------------- events

  /** One transaction on a ledger. `asked` is the clock the caller read before the
      write began, `now` the clock of the write; `actors` and `targets` are all the
      quota keys of the two identities. */
  datatype Event =
    | Reserve(a: Attempt, actors: set<string>, targets: set<string>, asked: int, now: int, why: string)
    | Settle(key: string, status: Option<Status>, reason: string, facts: Facts, now: int)

  ghost function Step(p: Policy, rows: Rows, e: Event): Rows {
    match e
    case Reserve(a, actors, targets, asked, now, why) =>
      AfterReserve(p, rows, Decide(p, rows, a, actors, targets, asked), a, why, now)
    case Settle(key, status, reason, facts, now) =>
      AfterSettle(p, rows, key, status, reason, facts, now)
  }

  ghost function Run(p: Policy, events: seq<Event>): Rows {
    if events == [] then map[] else Step(p, Run(p, events[..|events| - 1]), events[|events| - 1])
  }

  /** Clocks do not run backwards. */
  ghost predicate Timed(events: seq<Event>) {
    && (forall i :: 0 <= i < |events| && events[i].Reserve? ==> events[i].asked <= events[i].now)
    && (forall i, j :: 0 <= i < j < |events| ==> events[i].now <= events[j].now)
  }

  /** A verdict that consumes arrives at most `late` seconds after the reservation
      it closes. */
  ghost predicate PromptStep(p: Policy, rows: Rows, e: Event, late: int) {
    && e.Settle? && (e.status == Some(Applied) || e.status == Some(Replay))
    && e.key in rows && rows[e.key].status == Pending ==>
      e.now - rows[e.key].created <= late
  }

  ghost predicate Prompt(p: Policy, events: seq<Event>, late: int) {
    forall i :: 0 <= i < |events| ==> PromptStep(p, Run(p, events[..i]), events[i], late)
  }

  /** Whoever reserves under one key of the group is checked against all of them. */
  predicate Covers(e: Event, group: set<string>, peers: set<string>) {
    e.Reserve? && e.a.actor in group ==> group <= e.actors && (e.a.target in peers ==> peers <= e.targets)
  }

  ghost predicate CoversAll(events: seq<Event>, group: set<string>, peers: set<string>) {
    forall i :: 0 <= i < |events| ==> Covers(events[i], group, peers)
  }

  // ---------------------------------------------------------------- invariant

  function GroupAt(p: Policy, group: set<string>, start: int): Selection {
    Selection(group, None, start, Some(start + p.window))
  }

  function PairAt(p: Policy, group: set<string>, peers: set<string>, start: int): Selection {
    Selection(group, Some(peers), start, Some(start + p.window))
  }

  ghost predicate NoneAfter(rows: Rows, now: int) {
    forall k :: k in rows ==> rows[k].created <= now
  }

  /** At no start is a window of the policy's length over either cap, counting what
      is spent and what is reserved. */
  ghost predicate Capped(p: Policy, rows: Rows, now: int, group: set<string>, peers: set<string>) {
    && (p.actorCap.Some? ==> forall start :: Used(p, rows, GroupAt(p, group, start), now) <= p.actorCap.value)
    && (forall start :: Used(p, rows, PairAt(p, group, peers, start), now) <= p.pairCap)
  }

  /** The promise of the ledgers: what is consumed within any window stays within
      the caps. */
  ghost predicate SpentWithin(p: Policy, rows: Rows, group: set<string>, peers: set<string>) {
    && (p.actorCap.Some? ==> forall start :: SpentTotal(p, rows, GroupAt(p, group, start)) <= p.actorCap.value)
    && (forall start :: SpentTotal(p, rows, PairAt(p, group, peers, start)) <= p.pairCap)
  }

  lemma UsedLess(p: Policy, rows: Rows, s: Selection, now: int, rows': Rows, s': Selection, now': int)
    requires forall k :: k in rows && Picks(s, rows[k]) && Live(p, rows[k], now) ==>
               k in rows' && rows'[k].weight == rows[k].weight && Picks(s', rows'[k]) && Live(p, rows'[k], now')
    ensures Used(p, rows, s, now) <= Used(p, rows', s', now')
  {
    TotalPart(LiveWeights(p, rows, s, now), LiveWeights(p, rows', s', now'));
  }

  lemma SpentIsUsed(p: Policy, rows: Rows, s: Selection, now: int)
    ensures SpentTotal(p, rows, s) <= Used(p, rows, s, now)
  {
    TotalPart(SpentWeights(p, rows, s), LiveWeights(p, rows, s, now));
  }

  lemma CappedIsSpentWithin(p: Policy, rows: Rows, now: int, group: set<string>, peers: set<string>)
    requires Capped(p, rows, now, group, peers)
    ensures SpentWithin(p, rows, group, peers)
  {
    hide Used, SpentTotal;
    forall start ensures SpentTotal(p, rows, GroupAt(p, group, start)) <= Used(p, rows, GroupAt(p, group, start), now) {
      SpentIsUsed(p, rows, GroupAt(p, group, start), now);
    }
    forall start
      ensures SpentTotal(p, rows, PairAt(p, group, peers, start)) <= Used(p, rows, PairAt(p, group, peers, start), now)
    {
      SpentIsUsed(p, rows, PairAt(p, group, peers, start), now);
    }
  }

  /** Every row that counts after also counted before, with the same keys. */
  ghost predicate NothingNewLive(p: Policy, rows: Rows, now: int, rows': Rows, now': int) {
    forall k :: k in rows' && Live(p, rows'[k], now') ==>
      && k in rows && Live(p, rows[k], now)
      && rows[k].weight == rows'[k].weight && rows[k].actor == rows'[k].actor
      && rows[k].target == rows'[k].target && rows[k].created == rows'[k].created
  }

  /** Time passing, refusals and settlements of unexpired reservations only take
      away from what counts. */
  lemma CappedShrinks(p: Policy, rows: Rows, now: int, rows': Rows, now': int, group: set<string>, peers: set<string>)
    requires Capped(p, rows, now, group, peers) && NothingNewLive(p, rows, now, rows', now')
    ensures Capped(p, rows', now', group, peers)
  {
    hide Used;
    forall start
      ensures Used(p, rows', GroupAt(p, group, start), now') <= Used(p, rows, GroupAt(p, group, start), now)
    {
      UsedLess(p, rows', GroupAt(p, group, start), now', rows, GroupAt(p, group, start), now);
    }
    forall start
      ensures Used(p, rows', PairAt(p, group, peers, start), now') <= Used(p, rows, PairAt(p, group, peers, start), now)
    {
      UsedLess(p, rows', PairAt(p, group, peers, start), now', rows, PairAt(p, group, peers, start), now);
    }
  }

  /** A fresh reservation adds its weight to what the check has just summed, in
      every window that contains it. */
  lemma PendingUses(p: Policy, rows: Rows, a: Attempt, now: int, s: Selection, wide: Selection, asked: int)
    requires asked <= now && NoneAfter(rows, now) && !InFlight(rows, a.key)
    requires forall r :: Picks(s, r) && r.created <= now ==> Picks(wide, r)
    ensures Used(p, PutPending(rows, a, now), s, now) <= Used(p, rows, wide, asked) + a.weight
  {
    var m := LiveWeights(p, PutPending(rows, a, now), s, now);
    if a.key in m {
      TotalRemove(m, a.key);
    }
    var rest := m - {a.key};
    assert a.key !in m ==> rest == m;
    TotalPart(rest, LiveWeights(p, rows, wide, asked));
  }

  /** Where the reservation is not looked at, nothing moves: another counter keeps
      its number. */
  lemma PendingElsewhere(p: Policy, rows: Rows, a: Attempt, now: int, s: Selection)
    requires !InFlight(rows, a.key)
    requires var r := PutPending(rows, a, now)[a.key]; !Picks(s, r) || !Live(p, r, now)
    ensures Used(p, PutPending(rows, a, now), s, now) == Used(p, rows, s, now)
  {
    UsedLess(p, PutPending(rows, a, now), s, now, rows, s, now);
    UsedLess(p, rows, s, now, PutPending(rows, a, now), s, now);
  }

  /** A gift to oneself is always let through and spends nothing. */
  lemma ExemptIsFree(p: Policy, rows: Rows, a: Attempt, actors: set<string>, targets: set<string>,
                     asked: int, now: int, s: Selection)
    requires a.exempt && !InFlight(rows, a.key)
    ensures Decide(p, rows, a, actors, targets, asked) == Reserved
    ensures Used(p, PutPending(rows, a, now), s, now) == Used(p, rows, s, now)
  {
    PendingElsewhere(p, rows, a, now, s);
  }

  lemma ReserveKeepsActorCap(p: Policy, rows: Rows, e: Event, group: set<string>, peers: set<string>, start: int)
    requires e.Reserve? && e.asked <= e.now && NoneAfter(rows, e.now) && Capped(p, rows, e.now, group, peers)
    requires Covers(e, group, peers) && p.actorCap.Some?
    requires Decide(p, rows, e.a, e.actors, e.targets, e.asked) == Reserved
    ensures Used(p, PutPending(rows, e.a, e.now), GroupAt(p, group, start), e.now) <= p.actorCap.value
  {
    hide Used;
    if !e.a.exempt && e.a.actor in group && start <= e.now <= start + p.window {
      PendingUses(p, rows, e.a, e.now, GroupAt(p, group, start), ActorWindow(p, e.actors, e.asked), e.asked);
    } else {
      PendingElsewhere(p, rows, e.a, e.now, GroupAt(p, group, start));
    }
  }

  lemma ReserveKeepsPairCap(p: Policy, rows: Rows, e: Event, group: set<string>, peers: set<string>, start: int)
    requires e.Reserve? && e.asked <= e.now && NoneAfter(rows, e.now) && Capped(p, rows, e.now, group, peers)
    requires Covers(e, group, peers)
    requires Decide(p, rows, e.a, e.actors, e.targets, e.asked) == Reserved
    ensures Used(p, PutPending(rows, e.a, e.now), PairAt(p, group, peers, start), e.now) <= p.pairCap
  {
    hide Used;
    if !e.a.exempt && e.a.actor in group && e.a.target in peers && start <= e.now <= start + p.window {
      PendingUses(p, rows, e.a, e.now, PairAt(p, group, peers, start), PairWindow(p, e.actors, e.targets, e.asked),
                  e.asked);
    } else {
      PendingElsewhere(p, rows, e.a, e.now, PairAt(p, group, peers, start));
    }
  }

  lemma ReserveKeepsCaps(p: Policy, rows: Rows, e: Event, group: set<string>, peers: set<string>)
    requires e.Reserve? && e.asked <= e.now && NoneAfter(rows, e.now) && Capped(p, rows, e.now, group, peers)
    requires Covers(e, group, peers)
    ensures Capped(p, Step(p, rows, e), e.now, group, peers)
  {
    if Decide(p, rows, e.a, e.actors, e.targets, e.asked) == Reserved {
      hide Used, PutPending, Decide;
      if p.actorCap.Some? {
        forall start
          ensures Used(p, PutPending(rows, e.a, e.now), GroupAt(p, group, start), e.now) <= p.actorCap.value
        {
          ReserveKeepsActorCap(p, rows, e, group, peers, start);
        }
      }
      forall start ensures Used(p, PutPending(rows, e.a, e.now), PairAt(p, group, peers, start), e.now) <= p.pairCap {
        ReserveKeepsPairCap(p, rows, e, group, peers, start);
      }
    } else {
      hide Capped;
      CappedShrinks(p, rows, e.now, Step(p, rows, e), e.now, group, peers);
    }
  }

  lemma StepKeepsCaps(p: Policy, rows: Rows, now: int, e: Event, group: set<string>, peers: set<string>)
    requires NoneAfter(rows, now) && Capped(p, rows, now, group, peers)
    requires now <= e.now && (e.Reserve? ==> e.asked <= e.now)
    requires Covers(e, group, peers) && PromptStep(p, rows, e, p.ttl)
    ensures NoneAfter(Step(p, rows, e), e.now) && Capped(p, Step(p, rows, e), e.now, group, peers)
  {
    hide Capped;
    CappedShrinks(p, rows, now, rows, e.now, group, peers);
    if e.Reserve? {
      ReserveKeepsCaps(p, rows, e, group, peers);
    } else {
      CappedShrinks(p, rows, e.now, Step(p, rows, e), e.now, group, peers);
    }
  }

  lemma {:induction false} RunKeepsCaps(p: Policy, events: seq<Event>, group: set<string>, peers: set<string>)
    requires Timed(events) && CoversAll(events, group, peers) && Prompt(p, events, p.ttl)
    ensures events == [] ==> forall now :: Capped(p, Run(p, events), now, group, peers)
    ensures events != [] ==>
              NoneAfter(Run(p, events), events[|events| - 1].now) &&
              Capped(p, Run(p, events), events[|events| - 1].now, group, peers)
  {
    if events != [] {
      var before, e := events[..|events| - 1], events[|events| - 1];
      forall i | 0 <= i < |before| ensures PromptStep(p, Run(p, before[..i]), before[i], p.ttl) {
        assert before[..i] == events[..i];
      }
      RunKeepsCaps(p, before, group, peers);
      assert before == events[..|before|];
      assert PromptStep(p, Run(p, events[..|before|]), events[|before|], p.ttl);
      StepKeepsCaps(p, Run(p, before), if before == [] then e.now else before[|before| - 1].now, e, group, peers);
    }
  }

  /** The caps hold at every start of every run whose verdicts arrive before the
      reservations expire, for one key and for any group of keys that is always
      checked together. */
  lemma NeverOverCap(p: Policy, events: seq<Event>, group: set<string>, peers: set<string>)
    requires Timed(events) && CoversAll(events, group, peers) && Prompt(p, events, p.ttl)
    ensures SpentWithin(p, Run(p, events), group, peers)
  {
    hide Capped, SpentWithin;
    RunKeepsCaps(p, events, group, peers);
    CappedIsSpentWithin(p, Run(p, events), if events == [] then 0 else events[|events| - 1].now, group, peers);
  }

  /** An identity is always checked under the key its rows are stored by. */
  ghost predicate OwnKeys(events: seq<Event>) {
    forall i :: 0 <= i < |events| && events[i].Reserve? ==>
      events[i].a.actor in events[i].actors && events[i].a.target in events[i].targets
  }

  lemma NeverOverCapAt(p: Policy, events: seq<Event>, actor: string, target: string, start: int)
    requires Timed(events) && OwnKeys(events) && Prompt(p, events, p.ttl)
    ensures p.actorCap.Some? ==> SpentTotal(p, Run(p, events), GroupAt(p, {actor}, start)) <= p.actorCap.value
    ensures SpentTotal(p, Run(p, events), PairAt(p, {actor}, {target}, start)) <= p.pairCap
  {
    hide SpentTotal, Run;
    NeverOverCap(p, events, {actor}, {target});
  }

  // ------------------------------------------------------------- final verdicts

  /** No reservation, refusal or verdict touches a row that was applied or
      replayed. */
  lemma {:induction false} VerdictsAreFinal(p: Policy, events: seq<Event>, n: nat, k: string)
    requires n <= |events| && k in Run(p, events[..n])
    requires Run(p, events[..n])[k].status == Applied || Run(p, events[..n])[k].status == Replay
    ensures k in Run(p, events) && Run(p, events)[k] == Run(p, events[..n])[k]
    decreases |events|
  {
    if n < |events| {
      assert events[..|events| - 1][..n] == events[..n];
      VerdictsAreFinal(p, events[..|events| - 1], n, k);
    } else {
      assert events[..n] == events;
    }
  }

  // ------------------------------------------------------------- a reused key

  /** A key that was refused, that failed or that was put off is decided as if it had
      never been used: it faces the caps again. */
  lemma RefusedKeyIsNew(p: Policy, rows: Rows, a: Attempt, actors: set<string>, targets: set<string>, asked: int)
    requires a.key in rows
    requires rows[a.key].status == Refused || rows[a.key].status == Failed || rows[a.key].status == Deferred
    ensures Decide(p, rows, a, actors, targets, asked) == Decide(p, rows - {a.key}, a, actors, targets, asked)
    ensures Decide(p, rows, a, actors, targets, asked) != Known
  {
    WithoutIdle(p, rows, a.key, ActorWindow(p, actors, asked), asked);
    WithoutIdle(p, rows, a.key, PairWindow(p, actors, targets, asked), asked);
    hide Used;
  }

  /** A row that does not count can be left out of the count. */
  lemma WithoutIdle(p: Policy, rows: Rows, k: string, s: Selection, now: int)
    requires k in rows && !Live(p, rows[k], now)
    ensures Used(p, rows, s, now) == Used(p, rows - {k}, s, now)
  {
    UsedLess(p, rows, s, now, rows - {k}, s, now);
    UsedLess(p, rows - {k}, s, now, rows, s, now);
  }

  /** A key that is under way or was answered is let through as it is. */
  lemma AnsweredKeyIsKnown(p: Policy, rows: Rows, a: Attempt, actors: set<string>, targets: set<string>, asked: int)
    requires a.key in rows
    requires rows[a.key].status == Pending || rows[a.key].status == Applied || rows[a.key].status == Replay
    ensures Decide(p, rows, a, actors, targets, asked) == Known
  {
  }

  // ---------------------------------------------------------- what a verdict does

  /** The column takes the value given for it, cut to its width, or stays. */
  predicate Takes(before: Facts, after: Facts, column: string, given: Option<Fact>, width: nat) {
    match given
    case None => (column in after <==> column in before) && (column in before ==> after[column] == before[column])
    case Some(v) =>
      column in after
      && after[column] == if v.Text? && |v.s| > width then Text(v.s[..width]) else v
  }

  /** A pending row is closed by the first verdict with a known status; its keys and its
      place in the window stay, and nothing else in the table moves. */
  ghost predicate ClosedBy(was: Rows, rows: Rows, key: string, status: Option<Status>, reason: string, now: int) {
    if status.Some? && key in was && was[key].status == Pending then
      && rows.Keys == was.Keys && (forall k :: k in was && k != key ==> rows[k] == was[k])
      && rows[key] == was[key].(status := status.value, settled := Some(now), reason := rows[key].reason,
                                facts := rows[key].facts)
      && rows[key].reason == (if reason == "" then None
                              else Some(if |reason| > 500 then reason[..500] else reason))
    else rows == was
  }

  /** A refusal leaves a row of its own, or a mark on the row there was, with the reason
      or the first five hundred characters of it. */
  ghost predicate Traced(was: Rows, rows: Rows, key: string, reason: string, now: int) {
    && key in rows && rows[key].status == Refused && rows[key].settled == Some(now)
    && rows[key].reason == Some(if |reason| > 500 then reason[..500] else reason)
    && rows.Keys == was.Keys + {key} && (forall k :: k in was && k != key ==> rows[k] == was[k])
    && (key in was ==> rows[key] == was[key].(status := Refused, settled := Some(now), reason := rows[key].reason))
  }

  lemma RefusalIsTraced(rows: Rows, a: Attempt, reason: string, now: int)
    ensures Traced(rows, PutRefused(rows, a, reason, now), a.key, reason, now)
  {
  }

  lemma SettleCloses(p: Policy, rows: Rows, key: string, status: Option<Status>, reason: string, facts: Facts, now: int)
    ensures ClosedBy(rows, AfterSettle(p, rows, key, status, reason, facts, now), key, status, reason, now)
  {
  }

  /** The first of the names that the answer carries. */
  lemma {:induction false} StampOf(columns: seq<Column>, facts: Facts, i: nat)
    requires i < |columns| && forall j, k :: 0 <= j < k < |columns| ==> columns[j].name != columns[k].name
    ensures var given := FirstPresent(columns[i].aliases, facts);
            && (columns[i].name in Stamps(columns, facts) <==> given.Some?)
            && (given.Some? ==> Stamps(columns, facts)[columns[i].name] == Shorten(given.value, columns[i].width))
  {
    if i > 0 {
      StampOf(columns[1..], facts, i - 1);
    } else {
      assert forall j :: 0 <= j < |columns[1..]| ==> columns[1..][j] == columns[j + 1];
    }
  }

  lemma ColumnTakes(columns: seq<Column>, before: Facts, facts: Facts, i: nat)
    requires i < |columns| && forall j, k :: 0 <= j < k < |columns| ==> columns[j].name != columns[k].name
    ensures Takes(before, before + Stamps(columns, facts), columns[i].name, FirstPresent(columns[i].aliases, facts),
                  columns[i].width)
  {
    StampOf(columns, facts, i);
    hide Stamps, FirstPresent;
  }

  // ------------------------------------------------------- allowances come back

  /** What a reservation and a refusal do to a total that is read at the moment of
      the check. */
  lemma ReservationAddsItsWeight(p: Policy, rows: Rows, a: Attempt, s: Selection, asked: int, now: int)
    requires asked <= now && !a.exempt && !InFlight(rows, a.key) && Picks(s, PutPending(rows, a, now)[a.key])
    ensures Used(p, PutPending(rows, a, now), s, asked) == Used(p, rows, s, asked) + a.weight
  {
    var m := LiveWeights(p, PutPending(rows, a, now), s, asked);
    TotalRemove(m, a.key);
    assert m - {a.key} == LiveWeights(p, rows, s, asked);
  }

  lemma RefusalAddsNothing(p: Policy, rows: Rows, a: Attempt, why: string, s: Selection, asked: int, now: int)
    requires !InFlight(rows, a.key)
    ensures Used(p, PutRefused(rows, a, why, now), s, asked) == Used(p, rows, s, asked)
  {
    UsedLess(p, PutRefused(rows, a, why, now), s, asked, rows, s, asked);
    UsedLess(p, rows, s, asked, PutRefused(rows, a, why, now), s, asked);
  }

  /** A reservation whose request died takes nothing once its time is up: the
      allowance is what it would be had it never been made. */
  lemma StrandedReservationLapses(p: Policy, rows: Rows, k: string, s: Selection, now: int)
    requires k in rows && rows[k].status == Pending && now > rows[k].created + p.ttl
    ensures Used(p, rows, s, now) == Used(p, rows - {k}, s, now)
  {
    UsedLess(p, rows, s, now, rows - {k}, s, now);
    UsedLess(p, rows - {k}, s, now, rows, s, now);
  }

  /** One window after the last row, everything within the caps passes again. */
  lemma AllowanceReturns(p: Policy, rows: Rows, a: Attempt, actors: set<string>, targets: set<string>, asked: int)
    requires forall k :: k in rows ==> rows[k].created + p.window < asked
    requires !InFlight(rows, a.key) && a.weight <= p.pairCap && (p.actorCap.Some? ==> a.weight <= p.actorCap.value)
    ensures Decide(p, rows, a, actors, targets, asked) == Reserved
  {
    assert LiveWeights(p, rows, ActorWindow(p, actors, asked), asked) == map[];
    assert LiveWeights(p, rows, PairWindow(p, actors, targets, asked), asked) == map[];
  }

  /** A decimal numeral, as the refusal texts print counts. */
  function Decimal(n: nat): string {
    if n < 10 then [(n as char) + '0'] else Decimal(n / 10) + [((n % 10) as char) + '0']
  }

  /** What a numeral stands for. */
  function ValueOf(digits: string): int {
    if digits == "" then 0 else ValueOf(digits[..|digits| - 1]) * 10 + (digits[|digits| - 1] as int - '0' as int)
  }

  /** The texts print the count itself, without leading zeros. */
  lemma {:induction false} DecimalReads(n: nat)
    ensures ValueOf(Decimal(n)) == n && Decimal(n) != ""
    ensures forall i :: 0 <= i < |Decimal(n)| ==> '0' <= Decimal(n)[i] <= '9'
    ensures Decimal(n)[0] == '0' ==> n == 0
  {
    var s := Decimal(n);
    if n < 10 {
      assert s[..0] == "";
    } else {
      DecimalReads(n / 10);
      assert s[..|s| - 1] == Decimal(n / 10);
    }
  }

  // ------------------------------------------------ why verdicts must be prompt

  function TightCap(p: Policy): nat {
    if p.actorCap.Some? && p.actorCap.value < p.pairCap then p.actorCap.value else p.pairCap
  }

  function Nth(i: nat): Attempt {
    Attempt(seq(i, _ => 'x'), "s", "r", 1, false, map[])
  }

  /** As many single units as the cap allows, all asked for at once. */
  function Fill(n: nat): seq<Event> {
    if n == 0 then [] else Fill(n - 1) + [Reserve(Nth(n - 1), {"s"}, {"r"}, 0, 0, "")]
  }

  function ApplyAll(n: nat, now: int): seq<Event> {
    if n == 0 then [] else ApplyAll(n - 1, now) + [Settle(Nth(n - 1).key, Some(Applied), "", map[], now)]
  }

  /** The cap is filled, every reservation expires, one more is let in, and then
      `j` of the verdicts arrive. */
  function LateRun(p: Policy, j: nat): seq<Event> {
    Fill(TightCap(p)) + [OneMore(p)] + ApplyAll(j, p.ttl + 1)
  }

  function OneMore(p: Policy): Event {
    Reserve(Nth(TightCap(p)), {"s"}, {"r"}, p.ttl + 1, p.ttl + 1, "")
  }

  function Unit(now: int, status: Status, settled: Option<int>): Row {
    Row(now, "s", "r", 1, false, status, settled, None, map[])
  }

  function Filled(n: nat): (rows: Rows)
    ensures forall k :: k in rows ==> |k| < n
    ensures forall i :: 0 <= i < n ==> Nth(i).key in rows && rows[Nth(i).key] == Unit(0, Pending, None)
    ensures forall k :: k in rows ==> rows[k] == Unit(0, Pending, None)
  {
    if n == 0 then map[] else Filled(n - 1)[Nth(n - 1).key := Unit(0, Pending, None)]
  }

  lemma RunAppend(p: Policy, events: seq<Event>, e: Event)
    ensures Run(p, events + [e]) == Step(p, Run(p, events), e)
  {
    assert (events + [e])[..|events|] == events;
  }

  lemma FilledGrows(n: nat)
    ensures Nth(n).key !in Filled(n) && PutPending(Filled(n), Nth(n), 0) == Filled(n + 1)
  {
    assert |Nth(n).key| == n;
    assert PutPending(Filled(n), Nth(n), 0) == Filled(n)[Nth(n).key := Unit(0, Pending, None)];
  }

  lemma {:induction false} FilledUses(p: Policy, n: nat, s: Selection)
    ensures Used(p, Filled(n), s, 0) <= n
  {
    if n > 0 {
      hide Used;
      FilledUses(p, n - 1, s);
      FilledGrows(n - 1);
      PendingUses(p, Filled(n - 1), Nth(n - 1), 0, s, s, 0);
    }
  }

  lemma FillStep(p: Policy, n: nat)
    requires n < TightCap(p)
    ensures Step(p, Filled(n), Reserve(Nth(n), {"s"}, {"r"}, 0, 0, "")) == Filled(n + 1)
  {
    hide Used, Filled;
    FilledUses(p, n, ActorWindow(p, {"s"}, 0));
    FilledUses(p, n, PairWindow(p, {"s"}, {"r"}, 0));
    FilledGrows(n);
  }

  lemma {:induction false} FillRuns(p: Policy, n: nat)
    requires n <= TightCap(p)
    ensures Run(p, Fill(n)) == Filled(n)
  {
    hide Filled, Step, Run, Nth;
    if n > 0 {
      FillRuns(p, n - 1);
      RunAppend(p, Fill(n - 1), Reserve(Nth(n - 1), {"s"}, {"r"}, 0, 0, ""));
      FillStep(p, n - 1);
    } else {
      NothingRuns(p);
    }
  }

  lemma NothingRuns(p: Policy)
    ensures Run(p, []) == Filled(0) == map[]
  {
  }

  lemma ExpiredUsesNothing(p: Policy, n: nat, s: Selection)
    ensures Used(p, Filled(n), s, p.ttl + 1) == 0
  {
    assert LiveWeights(p, Filled(n), s, p.ttl + 1) == map[];
  }

  function Overfull(p: Policy): Rows {
    Filled(TightCap(p))[Nth(TightCap(p)).key := Unit(p.ttl + 1, Pending, None)]
  }

  lemma OneMoreStep(p: Policy)
    requires TightCap(p) > 0
    ensures Step(p, Filled(TightCap(p)), OneMore(p)) == Overfull(p)
  {
    hide Used, Filled;
    var c := TightCap(p);
    ExpiredUsesNothing(p, c, ActorWindow(p, {"s"}, p.ttl + 1));
    ExpiredUsesNothing(p, c, PairWindow(p, {"s"}, {"r"}, p.ttl + 1));
    FilledGrows(c);
  }

  lemma OneMoreRuns(p: Policy)
    requires TightCap(p) > 0
    ensures Run(p, LateRun(p, 0)) == Overfull(p)
  {
    hide Filled, Step, Run, Nth, Overfull, Fill;
    FillRuns(p, TightCap(p));
    RunAppend(p, Fill(TightCap(p)), OneMore(p));
    OneMoreStep(p);
    assert LateRun(p, 0) == Fill(TightCap(p)) + [OneMore(p)];
  }

  lemma NothingSpentYet(p: Policy, s: Selection)
    ensures SpentTotal(p, Overfull(p), s) == 0 && StillOpen(p, Overfull(p), 0)
  {
    assert SpentWeights(p, Overfull(p), s) == map[];
  }

  /** The reservations from the `j`-th on are still open. */
  ghost predicate StillOpen(p: Policy, rows: Rows, j: nat) {
    forall i :: j <= i <= TightCap(p) ==> Nth(i).key in rows && rows[Nth(i).key] == Overfull(p)[Nth(i).key]
  }

  ghost predicate PicksAll(p: Policy, s: Selection) {
    forall r: Row :: r.actor == "s" && r.target == "r" && 0 <= r.created <= p.ttl + 1 ==> Picks(s, r)
  }

  function NthVerdict(p: Policy, j: nat): Event {
    Settle(Nth(j).key, Some(Applied), "", map[], p.ttl + 1)
  }

  lemma VerdictAdds(p: Policy, rows: Rows, j: nat, s: Selection)
    requires j <= TightCap(p) && StillOpen(p, rows, j) && PicksAll(p, s)
    ensures SpentTotal(p, Step(p, rows, NthVerdict(p, j)), s) == SpentTotal(p, rows, s) + 1
    ensures StillOpen(p, Step(p, rows, NthVerdict(p, j)), j + 1)
  {
    var k, rows' := Nth(j).key, Step(p, rows, NthVerdict(p, j));
    TotalRemove(SpentWeights(p, rows', s), k);
    assert SpentWeights(p, rows', s) - {k} == SpentWeights(p, rows, s);
    assert forall i :: j < i ==> |Nth(i).key| != |k|;
  }

  /** Every verdict that arrives adds one unit, whatever the caps say. */
  lemma {:induction false} LateVerdictsCount(p: Policy, j: nat, s: Selection)
    requires 0 < TightCap(p) && j <= TightCap(p) + 1 && PicksAll(p, s)
    ensures SpentTotal(p, Run(p, LateRun(p, j)), s) == j && StillOpen(p, Run(p, LateRun(p, j)), j)
  {
    hide *;
    if j == 0 {
      OneMoreRuns(p);
      NothingSpentYet(p, s);
    } else {
      LateVerdictsCount(p, j - 1, s);
      LateRunGrows(p, j - 1);
      VerdictAdds(p, Run(p, LateRun(p, j - 1)), j - 1, s);
      RunAppend(p, LateRun(p, j - 1), NthVerdict(p, j - 1));
    }
  }

  lemma LateRunGrows(p: Policy, j: nat)
    ensures LateRun(p, j + 1) == LateRun(p, j) + [NthVerdict(p, j)]
  {
  }

  lemma {:induction false} FillShape(n: nat)
    ensures |Fill(n)| == n
    ensures forall i :: 0 <= i < n ==> Fill(n)[i].Reserve? && Fill(n)[i].asked == Fill(n)[i].now == 0
    ensures forall i :: 0 <= i < n ==>
              Fill(n)[i].a.actor == "s" && Fill(n)[i].actors == {"s"} && Fill(n)[i].targets == {"r"}
  {
    if n > 0 {
      FillShape(n - 1);
    }
  }

  lemma {:induction false} ApplyAllShape(n: nat, now: int)
    ensures |ApplyAll(n, now)| == n
    ensures forall i :: 0 <= i < n ==> ApplyAll(n, now)[i].Settle? && ApplyAll(n, now)[i].now == now
  {
    if n > 0 {
      ApplyAllShape(n - 1, now);
    }
  }

  lemma {:induction false} CreatedWithin(p: Policy, events: seq<Event>, from: int)
    requires forall i :: 0 <= i < |events| ==> from <= events[i].now
    ensures forall k :: k in Run(p, events) ==> from <= Run(p, events)[k].created
  {
    if events != [] {
      CreatedWithin(p, events[..|events| - 1], from);
    }
  }

  lemma LateRunIsTimed(p: Policy, j: nat)
    ensures Timed(LateRun(p, j)) && CoversAll(LateRun(p, j), {"s"}, {"r"})
    ensures forall i :: 0 <= i < |LateRun(p, j)| ==> 0 <= LateRun(p, j)[i].now <= p.ttl + 1
  {
    hide Fill, ApplyAll, TightCap;
    FillShape(TightCap(p));
    ApplyAllShape(j, p.ttl + 1);
  }

  lemma PromptBefore(p: Policy, events: seq<Event>, late: int)
    requires forall i :: 0 <= i < |events| ==> 0 <= events[i].now <= late
    ensures Prompt(p, events, late)
  {
    hide Run;
    forall i | 0 <= i < |events| ensures PromptStep(p, Run(p, events[..i]), events[i], late) {
      CreatedWithin(p, events[..i], 0);
    }
  }

  lemma LateRunIsOrderly(p: Policy, j: nat)
    ensures Timed(LateRun(p, j)) && CoversAll(LateRun(p, j), {"s"}, {"r"})
    ensures Prompt(p, LateRun(p, j), p.ttl + 1)
  {
    hide *;
    LateRunIsTimed(p, j);
    PromptBefore(p, LateRun(p, j), p.ttl + 1);
  }

  /** All runs whose verdicts come within `late` seconds. */
  ghost predicate HoldsWhenWithin(p: Policy, late: int) {
    forall events, group, peers ::
      Timed(events) && CoversAll(events, group, peers) && Prompt(p, events, late) ==>
        SpentWithin(p, Run(p, events), group, peers)
  }

  lemma LateRunBreaksCaps(p: Policy)
    requires 0 < TightCap(p) && p.ttl < p.window
    ensures !SpentWithin(p, Run(p, LateRun(p, TightCap(p) + 1)), {"s"}, {"r"})
  {
    var j := TightCap(p) + 1;
    LateVerdictsCount(p, j, GroupAt(p, {"s"}, 0));
    LateVerdictsCount(p, j, PairAt(p, {"s"}, {"r"}, 0));
    if p.actorCap.Some? && p.actorCap.value < p.pairCap {
      assert SpentTotal(p, Run(p, LateRun(p, j)), GroupAt(p, {"s"}, 0)) > p.actorCap.value;
    } else {
      assert SpentTotal(p, Run(p, LateRun(p, j)), PairAt(p, {"s"}, {"r"}, 0)) > p.pairCap;
    }
  }

  /** The caps hold over all runs exactly when no consuming verdict is later than
      the life of a reservation. */
  lemma CapsHoldIffVerdictsArePrompt(p: Policy, late: int)
    requires 0 < TightCap(p) && p.ttl < p.window
    ensures HoldsWhenWithin(p, late) <==> late <= p.ttl
  {
    if late <= p.ttl {
      forall events, group, peers | Timed(events) && CoversAll(events, group, peers) && Prompt(p, events, late)
        ensures SpentWithin(p, Run(p, events), group, peers)
      {
        assert Prompt(p, events, p.ttl);
        NeverOverCap(p, events, group, peers);
      }
    } else {
      LateRunIsOrderly(p, TightCap(p) + 1);
      LateRunBreaksCaps(p);
      assert Prompt(p, LateRun(p, TightCap(p) + 1), late);
    }
  }
}
