/** Daily item-transfer caps: one count over everything a sender moves, one for each
    sender and recipient. */
module TransferEvents {
  import opened Wrappers
  import opened QuotaLedger

  const XFER_MAX_PER_DAY := 30
  const XFER_MAX_PER_PAIR_PER_DAY := 15
  const PENDING_TTL_SECONDS := 180

  const POLICY := Policy(86400, PENDING_TTL_SECONDS, Some(XFER_MAX_PER_DAY), XFER_MAX_PER_PAIR_PER_DAY, true, [
    Column("item_name", ["display_name", "item_name"], 200), Column("item_grade", ["quality_level", "item_grade"], 200),
    Column("template_id", ["template_id"], 200)])

  datatype Transfer = Transfer(
    key: string, sender: string, senderAccount: int, recipient: string, recipientAccount: int, item: int,
    template: Fact)

  datatype Answer = Answer(ok: bool, reason: string, retryAfter: nat)

  /** The table refuses rows without an item. */
  datatype Error = IntegrityError

  function ToAttempt(x: Transfer): Attempt {
    Attempt(x.key, x.sender, x.recipient, 1, false, map[
      "sender_account_id" := Num(x.senderAccount), "recipient_account_id" := Num(x.recipientAccount),
      "item_id" := Num(x.item), "template_id" := Shorten(x.template, 200)])
  }

  function OverDay(day: nat): string {
    "identity daily cap (" + Decimal(day) + " in 24h, max " + Decimal(XFER_MAX_PER_DAY) + ")"
  }

  function OverPair(pair: nat): string {
    "identity pair cap (" + Decimal(pair) + " in 24h, max " + Decimal(XFER_MAX_PER_PAIR_PER_DAY) + ")"
  }

  /** The text stored with a refusal names the cap that was met. */
  ghost function Why(rows: Rows, x: Transfer, senders: set<string>, recipients: set<string>, asked: int): string {
    var day := Used(POLICY, rows, ActorWindow(POLICY, senders, asked), asked);
    if day >= XFER_MAX_PER_DAY then OverDay(day)
    else OverPair(Used(POLICY, rows, PairWindow(POLICY, senders, recipients, asked), asked))
  }

  /** Counts against the caps: moved for good, or reserved within the last three
      minutes. */
  predicate Counts(r: Row, asked: int) {
    !r.exempt && (r.status == Applied || r.status == Replay || (r.status == Pending && asked - 180 <= r.created))
  }

  /** What a sender has moved in the 24 hours to a moment, to anyone or to these. */
  ghost function MovedWeights(rows: Rows, senders: set<string>, asked: int): map<string, nat> {
    map k | k in rows && rows[k].actor in senders
            && asked - 24 * 3600 <= rows[k].created && Counts(rows[k], asked) :: rows[k].weight
  }

  ghost function Moved(rows: Rows, senders: set<string>, asked: int): nat {
    Total(MovedWeights(rows, senders, asked))
  }

  ghost function MovedToWeights(rows: Rows, senders: set<string>, recipients: set<string>, asked: int)
    : map<string, nat>
  {
    map k | k in rows && rows[k].actor in senders && rows[k].target in recipients
            && asked - 24 * 3600 <= rows[k].created && Counts(rows[k], asked) :: rows[k].weight
  }

  ghost function MovedTo(rows: Rows, senders: set<string>, recipients: set<string>, asked: int): nat {
    Total(MovedToWeights(rows, senders, recipients, asked))
  }

  lemma MovedIsUsed(rows: Rows, senders: set<string>, recipients: set<string>, asked: int)
    ensures Moved(rows, senders, asked) == Used(POLICY, rows, ActorWindow(POLICY, senders, asked), asked)
    ensures MovedTo(rows, senders, recipients, asked)
            == Used(POLICY, rows, PairWindow(POLICY, senders, recipients, asked), asked)
  {
    assert LiveWeights(POLICY, rows, ActorWindow(POLICY, senders, asked), asked)
        == MovedWeights(rows, senders, asked);
    assert LiveWeights(POLICY, rows, PairWindow(POLICY, senders, recipients, asked), asked)
        == MovedToWeights(rows, senders, recipients, asked);
  }

  /** The key has no row, or one that moved nothing. */
  predicate MustFaceCaps(rows: Rows, key: string) {
    key !in rows || rows[key].status == Refused || rows[key].status == Failed || rows[key].status == Deferred
  }

  /** A row of its own for the reservation, with what was asked. */
  ghost predicate Reservation(was: Rows, rows: Rows, x: Transfer, now: int) {
    && x.key in rows && rows == was[x.key := rows[x.key]]
    && var row := rows[x.key];
    && row.status == Pending && row.created == now && row.settled == None && row.reason == None
    && row.actor == x.sender && row.target == x.recipient && row.weight == 1 && !row.exempt
    && row.facts.Keys >= {"sender_account_id", "recipient_account_id", "item_id", "template_id"}
    && row.facts["sender_account_id"] == Num(x.senderAccount) && row.facts["item_id"] == Num(x.item)
    && row.facts["recipient_account_id"] == Num(x.recipientAccount)
    && row.facts["template_id"]
       == if x.template.Text? && |x.template.s| > 200 then Text(x.template.s[..200]) else x.template
  }

  ghost predicate Refusal(was: Rows, rows: Rows, x: Transfer, reason: string, now: int) {
    && Traced(was, rows, x.key, reason, now)
    && (x.key !in was ==>
          && rows[x.key].actor == x.sender && rows[x.key].target == x.recipient
          && rows[x.key].weight == 1 && rows[x.key].created == now)
  }

  /** What becomes of a request: a key under way or answered passes as it is; any other
      meets 30 transfers a day first, then 15 to the same recipient. */
  ghost predicate Resolved(was: Rows, rows: Rows, x: Transfer, senders: set<string>, recipients: set<string>,
        asked: int, now: int, r: Result<Answer, Error>) {
    if !MustFaceCaps(was, x.key) then r == Ok(Answer(true, "", 0)) && rows == was
    else if x.item <= 0 then r.Err? && rows == was
    else if Moved(was, senders, asked) >= 30 then
      && r == Ok(Answer(false, "daily", 86400))
      && Refusal(was, rows, x, "identity daily cap (" + Decimal(Moved(was, senders, asked)) + " in 24h, max "
                               + Decimal(30) + ")", now)
    else if MovedTo(was, senders, recipients, asked) >= 15 then
      && r == Ok(Answer(false, "pair", 86400))
      && Refusal(was, rows, x, "identity pair cap (" + Decimal(MovedTo(was, senders, recipients, asked))
                               + " in 24h, max " + Decimal(15) + ")", now)
    else r == Ok(Answer(true, "", 0)) && Reservation(was, rows, x, now)
  }

  lemma PendingIsReservation(was: Rows, x: Transfer, now: int)
    ensures Reservation(was, PutPending(was, ToAttempt(x), now), x, now)
  {
  }

  lemma RefusedIsRefusal(was: Rows, x: Transfer, reason: string, now: int)
    ensures Refusal(was, PutRefused(was, ToAttempt(x), reason, now), x, reason, now)
  {
    RefusalIsTraced(was, ToAttempt(x), reason, now);
    hide Traced;
  }

  class Events {
    var rows: Rows

    constructor ()
      ensures rows == map[]
    {
      rows := map[];
    }

    /** Check both caps and reserve in one write; the daily cap is looked at first. */
    method CheckAndReserve(x: Transfer, senders: set<string>, recipients: set<string>, asked: int, now: int)
      returns (r: Result<Answer, Error>)
      requires x.sender in senders && x.recipient in recipients && asked <= now
      modifies this
      ensures r.Err? <==> !InFlight(old(rows), x.key) && x.item <= 0
      ensures r.Err? ==> rows == old(rows)
      ensures r.Ok? ==>
                rows == Step(POLICY, old(rows),
                             Reserve(ToAttempt(x), senders, recipients, asked, now,
                                     Why(old(rows), x, senders, recipients, asked)))
      ensures r.Ok? ==> r.value == match Decide(POLICY, old(rows), ToAttempt(x), senders, recipients, asked)
                                   case OverActorCap => Answer(false, "daily", 24 * 3600)
                                   case OverPairCap => Answer(false, "pair", 24 * 3600)
                                   case _ => Answer(true, "", 0)
      ensures Resolved(old(rows), rows, x, senders, recipients, asked, now, r)
    {
      MovedIsUsed(rows, senders, recipients, asked);
      hide Moved, MovedTo, Used, Reservation, Refusal, PutPending, PutRefused, ActorWindow, PairWindow;
      if InFlight(rows, x.key) {
        return Ok(Answer(true, "", 0));
      }
      var a := ToAttempt(x);
      var day := SumLive(POLICY, rows, ActorWindow(POLICY, senders, asked), asked);
      var pair := SumLive(POLICY, rows, PairWindow(POLICY, senders, recipients, asked), asked);
      if x.item <= 0 {
        return Err(IntegrityError);
      }
      if day >= XFER_MAX_PER_DAY {
        RefusedIsRefusal(rows, x, OverDay(day), now);
        rows := PutRefused(rows, a, OverDay(day), now);
        return Ok(Answer(false, "daily", 24 * 3600));
      }
      if pair >= XFER_MAX_PER_PAIR_PER_DAY {
        RefusedIsRefusal(rows, x, OverPair(pair), now);
        rows := PutRefused(rows, a, OverPair(pair), now);
        return Ok(Answer(false, "pair", 24 * 3600));
      }
      PendingIsReservation(rows, x, now);
      rows := PutPending(rows, a, now);
      return Ok(Answer(true, "", 0));
    }

    method Settle(key: string, status: Option<Status>, reason: string, facts: Facts, now: int)
      modifies this
      ensures rows == Step(POLICY, old(rows), Event.Settle(key, status, reason, facts, now))
      ensures ClosedBy(old(rows), rows, key, status, reason, now)
      ensures status.Some? && key in old(rows) && old(rows)[key].status == Pending ==>
                FactsTaken(old(rows)[key].facts, rows[key].facts, facts)
    {
      SettleCloses(POLICY, rows, key, status, reason, facts, now);
      if status.Some? && key in rows && rows[key].status == Pending {
        ColumnsTake(rows[key].facts, facts);
      }
      hide ClosedBy, FactsTaken, Stamps;
      if status.None? {
        return;
      }
      rows := AfterSettle(POLICY, rows, key, status, reason, facts, now);
    }
  }

  /** Columns take the writer's name for them, where it gives one. */
  predicate FactsTaken(before: Facts, after: Facts, facts: Facts) {
    && Takes(before, after, "item_name",
             if "display_name" in facts then Some(facts["display_name"])
             else if "item_name" in facts then Some(facts["item_name"]) else None, 200)
    && Takes(before, after, "item_grade",
             if "quality_level" in facts then Some(facts["quality_level"])
             else if "item_grade" in facts then Some(facts["item_grade"]) else None, 200)
    && Takes(before, after, "template_id", if "template_id" in facts then Some(facts["template_id"]) else None, 200)
  }

  lemma ColumnsTake(before: Facts, facts: Facts)
    ensures FactsTaken(before, before + Stamps(POLICY.columns, facts), facts)
  {
    var columns := POLICY.columns;
    ColumnTakes(columns, before, facts, 0);
    ColumnTakes(columns, before, facts, 1);
    ColumnTakes(columns, before, facts, 2);
    FirstOfTwo("display_name", "item_name", facts);
    FirstOfTwo("quality_level", "item_grade", facts);
    hide Stamps, Takes;
  }

  lemma FirstOfTwo(a: string, b: string, facts: Facts)
    ensures FirstPresent([a, b], facts) ==
            if a in facts then Some(facts[a]) else if b in facts then Some(facts[b]) else None
  {
    assert [a, b][1..] == [b] && [b][1..] == [];
    assert FirstPresent([b], facts) == if b in facts then Some(facts[b]) else None;
  }

  /** What went through in the 24 hours from a moment on, from a sender and between two. */
  ghost function SentWeights(rows: Rows, sender: string, start: int): map<string, nat> {
    map k | k in rows && rows[k].actor == sender && !rows[k].exempt
            && start <= rows[k].created <= start + 24 * 3600
            && (rows[k].status == Applied || rows[k].status == Replay) :: rows[k].weight
  }

  ghost function Sent(rows: Rows, sender: string, start: int): nat {
    Total(SentWeights(rows, sender, start))
  }

  ghost function SentToWeights(rows: Rows, sender: string, recipient: string, start: int): map<string, nat> {
    map k | k in rows && rows[k].actor == sender && rows[k].target == recipient && !rows[k].exempt
            && start <= rows[k].created <= start + 24 * 3600
            && (rows[k].status == Applied || rows[k].status == Replay) :: rows[k].weight
  }

  ghost function SentTo(rows: Rows, sender: string, recipient: string, start: int): nat {
    Total(SentToWeights(rows, sender, recipient, start))
  }

  lemma SentIsSpent(rows: Rows, sender: string, recipient: string, start: int)
    ensures Sent(rows, sender, start) == SpentTotal(POLICY, rows, GroupAt(POLICY, {sender}, start))
    ensures SentTo(rows, sender, recipient, start)
            == SpentTotal(POLICY, rows, PairAt(POLICY, {sender}, {recipient}, start))
  {
    assert SpentWeights(POLICY, rows, GroupAt(POLICY, {sender}, start))
        == SentWeights(rows, sender, start);
    assert SpentWeights(POLICY, rows, PairAt(POLICY, {sender}, {recipient}, start))
        == SentToWeights(rows, sender, recipient, start);
  }

  /** In no 24 hours of a run do more than 30 transfers of a sender, or more than 15
      between the same two, go through. */
  lemma DailyCaps(events: seq<Event>, sender: string, recipient: string, start: int)
    requires Timed(events) && OwnKeys(events) && Prompt(POLICY, events, 180)
    ensures Sent(Run(POLICY, events), sender, start) <= 30
    ensures SentTo(Run(POLICY, events), sender, recipient, start) <= 15
  {
    hide Sent, SentTo, SpentTotal, Run, Timed, OwnKeys, Prompt;
    SentIsSpent(Run(POLICY, events), sender, recipient, start);
    NeverOverCapAt(POLICY, events, sender, recipient, start);
  }
}
