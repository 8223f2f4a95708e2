/** The weekly dust cap of the ingot refinery: units, not rows, are summed, one
    counter for each identity and output template. */
module RefineryEvents {
  import opened Wrappers
  import opened QuotaLedger

  const WEEKLY_DUST_CAP := 250
  const WINDOW_DAYS := 7
  const PENDING_TTL_SECONDS := 180

  const POLICY := Policy(WINDOW_DAYS * 86400, PENDING_TTL_SECONDS, None, WEEKLY_DUST_CAP, true, [
    Column("input_units", ["input_units"], 120), Column("spice_units", ["spice_units"], 120),
    Column("input_template", ["input_template"], 120), Column("owner_ctrl", ["owner_ctrl"], 120)])

  /** One exchange as the route asks for it. */
  datatype Exchange = Exchange(
    key: string, identity: string, account: int, ownerCtrl: Fact, tier: int, output: string, input: Fact,
    batches: int, dust: int, inputUnits: Fact, spiceUnits: Fact)

  datatype Answer = Answer(ok: bool, reason: string, retryAfter: nat, used: nat)

  /** The table refuses rows without dust or without batches. */
  datatype Error = IntegrityError

  function ToAttempt(x: Exchange): Attempt
    requires x.dust > 0
  {
    Attempt(x.key, x.identity, x.output, x.dust, false, map[
      "account_id" := Num(x.account), "owner_ctrl" := x.ownerCtrl, "tier" := Num(x.tier),
      "input_template" := Shorten(x.input, 120),
      "batches" := Num(x.batches), "input_units" := x.inputUnits, "spice_units" := x.spiceUnits])
  }

  /** Exactly one counter: this identity's keys and this tier's output. */
  function Tier(x: Exchange, keys: set<string>, asked: int): Selection {
    PairWindow(POLICY, keys, {x.output}, asked)
  }

  function OverWeekly(used: nat, dust: int): string
    requires dust > 0
  {
    "weekly dust cap (" + Decimal(used) + " of " + Decimal(WEEKLY_DUST_CAP) + " in " + Decimal(WINDOW_DAYS) +
    "d, asked " + Decimal(dust) + ")"
  }

  /** Counts against the weekly cap: minted for good, or reserved within the last three
      minutes. */
  predicate Counts(r: Row, asked: int) {
    !r.exempt && (r.status == Applied || r.status == Replay || (r.status == Pending && asked - 180 <= r.created))
  }

  /** The dust of one tier that an identity has taken in the seven days to a moment. */
  ghost function TakenWeights(rows: Rows, keys: set<string>, output: string, asked: int): map<string, nat> {
    map k | k in rows && rows[k].actor in keys && rows[k].target == output
            && asked - 7 * 86400 <= rows[k].created && Counts(rows[k], asked) :: rows[k].weight
  }

  ghost function Taken(rows: Rows, keys: set<string>, output: string, asked: int): nat {
    Total(TakenWeights(rows, keys, output, asked))
  }

  lemma TakenIsUsed(rows: Rows, keys: set<string>, output: string, asked: int)
    ensures Taken(rows, keys, output, asked) == Used(POLICY, rows, PairWindow(POLICY, keys, {output}, asked), asked)
  {
    assert LiveWeights(POLICY, rows, PairWindow(POLICY, keys, {output}, asked), asked)
        == TakenWeights(rows, keys, output, asked);
  }

  /** The key has no row, or one that minted nothing. */
  predicate MustFaceCap(rows: Rows, key: string) {
    key !in rows || rows[key].status == Refused || rows[key].status == Failed || rows[key].status == Deferred
  }

  /** A row of its own for the reservation, with what was asked. */
  ghost predicate Reservation(was: Rows, rows: Rows, x: Exchange, now: int) {
    && x.key in rows && rows == was[x.key := rows[x.key]]
    && var row := rows[x.key];
    && row.status == Pending && row.created == now && row.settled == None && row.reason == None
    && row.actor == x.identity && row.target == x.output && row.weight == x.dust && !row.exempt
    && row.facts.Keys >= {"account_id", "owner_ctrl", "tier", "input_template", "batches", "input_units", "spice_units"}
    && row.facts["account_id"] == Num(x.account) && row.facts["tier"] == Num(x.tier)
    && row.facts["batches"] == Num(x.batches) && row.facts["owner_ctrl"] == x.ownerCtrl
    && row.facts["input_units"] == x.inputUnits && row.facts["spice_units"] == x.spiceUnits
    && row.facts["input_template"]
       == if x.input.Text? && |x.input.s| > 120 then Text(x.input.s[..120]) else x.input
  }

  ghost predicate Refusal(was: Rows, rows: Rows, x: Exchange, reason: string, now: int) {
    && Traced(was, rows, x.key, reason, now)
    && (x.key !in was ==>
          && rows[x.key].actor == x.identity && rows[x.key].target == x.output
          && rows[x.key].weight == x.dust && rows[x.key].created == now)
  }

  /** What becomes of a request: a key under way or answered passes as it is; any other
      is weighed against 250 units of the tier in seven days. */
  ghost predicate Resolved(was: Rows, rows: Rows, x: Exchange, keys: set<string>, asked: int, now: int,
        r: Result<Answer, Error>) {
    var taken := Taken(was, keys, x.output, asked);
    if !MustFaceCap(was, x.key) then r == Ok(Answer(true, "", 0, taken)) && rows == was
    else if x.dust <= 0 || x.batches <= 0 then r.Err? && rows == was
    else if taken + x.dust > 250 then
      && r == Ok(Answer(false, "weekly_cap", 7 * 86400, taken))
      && Refusal(was, rows, x, "weekly dust cap (" + Decimal(taken) + " of " + Decimal(250) + " in " + Decimal(7)
                               + "d, asked " + Decimal(x.dust) + ")", now)
    else r == Ok(Answer(true, "", 0, taken + x.dust)) && Reservation(was, rows, x, now)
  }

  lemma PendingIsReservation(was: Rows, x: Exchange, now: int)
    requires x.dust > 0
    ensures Reservation(was, PutPending(was, ToAttempt(x), now), x, now)
  {
  }

  lemma RefusedIsRefusal(was: Rows, x: Exchange, reason: string, now: int)
    requires x.dust > 0
    ensures Refusal(was, PutRefused(was, ToAttempt(x), reason, now), x, reason, now)
  {
    RefusalIsTraced(was, ToAttempt(x), reason, now);
    hide Traced;
  }

  class Events {
    var rows: Rows

    constructor ()
      ensures rows == map[]
    {
      rows := map[];
    }

    /** Check and reserve in one write. Whatever the outcome, `used` is the tier's
        total in the table as it now stands. */
    method CheckAndReserve(x: Exchange, keys: set<string>, asked: int, now: int) returns (r: Result<Answer, Error>)
      requires x.identity in keys && asked <= now
      modifies this
      ensures r.Err? <==> !InFlight(old(rows), x.key) && (x.dust <= 0 || x.batches <= 0)
      ensures r.Err? || InFlight(old(rows), x.key) ==> rows == old(rows)
      ensures r.Ok? && !InFlight(old(rows), x.key) ==>
                var used := Used(POLICY, old(rows), Tier(x, keys, asked), asked);
                && rows == Step(POLICY, old(rows),
                                Reserve(ToAttempt(x), keys, {x.output}, asked, now, OverWeekly(used, x.dust)))
                && (r.value.ok <==> used + x.dust <= WEEKLY_DUST_CAP)
      ensures r.Ok? ==> r.value.used == Used(POLICY, rows, Tier(x, keys, asked), asked)
      ensures Resolved(old(rows), rows, x, keys, asked, now, r)
      ensures r.Ok? && r.value.ok ==> r.value.reason == "" && r.value.retryAfter == 0
      ensures r.Ok? && !r.value.ok ==> r.value.reason == "weekly_cap" && r.value.retryAfter == WINDOW_DAYS * 24 * 3600
    {
      var used := SumLive(POLICY, rows, Tier(x, keys, asked), asked);
      TakenIsUsed(rows, keys, x.output, asked);
      hide Taken, Used, Traced, Reservation, Refusal, PutRefused;
      if InFlight(rows, x.key) {
        return Ok(Answer(true, "", 0, used));
      }
      if x.dust <= 0 || x.batches <= 0 {
        return Err(IntegrityError);
      }
      var a := ToAttempt(x);
      if used + x.dust > WEEKLY_DUST_CAP {
        RefusalAddsNothing(POLICY, rows, a, OverWeekly(used, x.dust), Tier(x, keys, asked), asked, now);
        RefusedIsRefusal(rows, x, OverWeekly(used, x.dust), now);
        rows := PutRefused(rows, a, OverWeekly(used, x.dust), now);
        return Ok(Answer(false, "weekly_cap", WINDOW_DAYS * 24 * 3600, used));
      }
      ReservationAddsItsWeight(POLICY, rows, a, Tier(x, keys, asked), asked, now);
      PendingIsReservation(rows, x, now);
      rows := PutPending(rows, a, now);
      return Ok(Answer(true, "", 0, used + x.dust));
    }

    method Settle(key: string, status: Option<Status>, reason: string, facts: Facts, now: int)
      modifies this
      ensures rows == Step(POLICY, old(rows), Event.Settle(key, status, reason, facts, now))
      ensures ClosedBy(old(rows), rows, key, status, reason, now)
      ensures status.Some? && key in old(rows) && old(rows)[key].status == Pending ==>
                forall c :: c in {"input_units", "spice_units", "input_template", "owner_ctrl"} ==>
                  Takes(old(rows)[key].facts, rows[key].facts, c, if c in facts then Some(facts[c]) else None, 120)
    {
      SettleCloses(POLICY, rows, key, status, reason, facts, now);
      if status.Some? && key in rows && rows[key].status == Pending {
        FactsTaken(rows[key].facts, facts);
      }

      if status.None? {
        return;
      }
      rows := AfterSettle(POLICY, rows, key, status, reason, facts, now);
    }
  }

  lemma FactsTaken(before: Facts, facts: Facts)
    ensures forall c :: c in {"input_units", "spice_units", "input_template", "owner_ctrl"} ==>
              Takes(before, before + Stamps(POLICY.columns, facts), c, if c in facts then Some(facts[c]) else None, 120)
  {
    for i := 0 to |POLICY.columns|
      invariant forall j :: 0 <= j < i ==>
                  Takes(before, before + Stamps(POLICY.columns, facts), POLICY.columns[j].name,
                        FirstPresent(POLICY.columns[j].aliases, facts), 120)
    {
      ColumnTakes(POLICY.columns, before, facts, i);
    }
    assert POLICY.columns[0].name == "input_units" && POLICY.columns[1].name == "spice_units";
    assert POLICY.columns[2].name == "input_template" && POLICY.columns[3].name == "owner_ctrl";
  }

  /** The dust of one tier that an identity was given in the seven days from a moment on. */
  ghost function MintedWeights(rows: Rows, identity: string, output: string, start: int): map<string, nat> {
    map k | k in rows && rows[k].actor == identity && rows[k].target == output && !rows[k].exempt
            && start <= rows[k].created <= start + 7 * 86400
            && (rows[k].status == Applied || rows[k].status == Replay) :: rows[k].weight
  }

  ghost function Minted(rows: Rows, identity: string, output: string, start: int): nat {
    Total(MintedWeights(rows, identity, output, start))
  }

  lemma MintedIsSpent(rows: Rows, identity: string, output: string, start: int)
    ensures Minted(rows, identity, output, start)
            == SpentTotal(POLICY, rows, PairAt(POLICY, {identity}, {output}, start))
  {
    assert SpentWeights(POLICY, rows, PairAt(POLICY, {identity}, {output}, start))
        == MintedWeights(rows, identity, output, start);
  }

  /** No seven days anywhere in a run hold more than 250 units of one tier under one
      identity, when verdicts arrive within three minutes. */
  lemma WeeklyDustCap(events: seq<Event>, identity: string, output: string, start: int)
    requires Timed(events) && OwnKeys(events) && Prompt(POLICY, events, 180)
    ensures Minted(Run(POLICY, events), identity, output, start) <= 250
  {
    hide Minted, SpentTotal, Run, Timed, OwnKeys, Prompt;
    MintedIsSpent(Run(POLICY, events), identity, output, start);
    NeverOverCapAt(POLICY, events, identity, output, start);
  }
}
